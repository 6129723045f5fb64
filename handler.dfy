/** The per-model handler of src/Translucent/S3Observer/Handler.php.
    Its behaviour is a stub in the repository, so the model keeps only what the
    dispatcher relies on: a handler is an object with its own identity that
    remembers the model name it was created for. */
module Handling {

  class Handler {
    /** The model class name passed to the handler's constructor. */
    const modelName: string

    constructor (modelName: string)
      ensures this.modelName == modelName
    {
      this.modelName := modelName;
    }
  }
}
