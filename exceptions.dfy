/** The exceptions a refinement run can end with. */
module Exceptions {

  /**
    * The three built-in exceptions the core raises itself, and one case for
    * whatever a collaborator outside the model (zip extraction, JSON
    * parsing, the store, encryption, the IPFS client) raises.
    */
  datatype Exception =
    | FileNotFoundError(message: string)
    | ValueError(message: string)
    | KeyError(key: string)
    | CollaboratorError(description: string)
}
