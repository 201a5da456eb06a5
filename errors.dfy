/** The exceptions the controller's core throws, one constructor per cause.
    The French message texts are not modelled; each error keeps the data
    its message is built from. */
module Errors {
  import opened Wrappers

  /** Exceptions raised by System.Text.Json accessors on an unexpected value. */
  datatype Fault =
    | WrongKind                      // InvalidOperationException: accessor applied to a value of another kind
    | MissingProperty(name: string)  // KeyNotFoundException from GetProperty
    | NotInt32                       // FormatException from GetInt32
    | NotJson                        // JsonException from JsonDocument.Parse

  datatype Error =
    | Validation                                                // a configuration field is null or blank
    | Transport(status: int, reason: string, body: Option<string>) // non-success HTTP status
    | Remote(message: string)                                   // JSON-RPC `error` carrying error.data.message
    | NoSessionCookie                                           // no session_id cookie after authentication
    | OrderNotFound(orderId: int)                               // sale.order search returned no row
    | PartnerNotFound                                           // res.partner search gave no usable id
    | UnexpectedCreate(model: string)                           // `create` did not return a number
    | Access(fault: Fault)                                      // a JSON accessor threw
}
