/** The message texts of the application's resource module `app.resources.strings`.
    That module is not part of this model, so each text is known only by its name. */
module Strings {

  datatype Resource = MsUnavailable | MsInvalidApiPath | DataResponseMalformed
}
