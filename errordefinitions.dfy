/** The client-visible error table (app/errors/errordefinitions.js): a
    constant code -> message map and the two maps derived from it once,
    the error objects and the `codes` identity map. */
module ErrorDefinitions {
  import opened Wrappers

  /** A ClientError carries a machine-readable code and a message. The code
      is absent when the source passes an undefined code. */
  datatype ClientError = ClientError(code: Option<string>, message: string)

  /** The `errors` table, typo in the second message included. */
  const Messages: map<string, string> :=
    map["PARTNER_ALREADY_EXISTS" := "Partner already exists",
        "PARTNER_NOT_FOUND" := "Patner not found"]

  /** `_.fromPairs(_.map(errors, (msg, code) => [code, new ClientError(code, msg)]))` */
  function ErrorObjects(messages: map<string, string>): (r: map<string, ClientError>)
    ensures r.Keys == messages.Keys
    ensures forall code :: code in r ==> r[code].code == Some(code) && r[code].message == messages[code]
  {
    map code | code in messages :: ClientError(Some(code), messages[code])
  }

  /** `_.mapValues(errors, (msg, code) => code)` */
  function Codes(messages: map<string, string>): (r: map<string, string>)
    ensures r.Keys == messages.Keys
    ensures forall code :: code in r ==> r[code] == code
  {
    map code | code in messages :: code
  }

  /** What the module exports: the error objects, and beside them `codes`. */
  datatype Exports = Exports(objects: map<string, ClientError>, codes: map<string, string>)

  function Definitions(): (e: Exports)
    ensures e.objects.Keys == e.codes.Keys == {"PARTNER_ALREADY_EXISTS", "PARTNER_NOT_FOUND"}
  {
    Exports(ErrorObjects(Messages), Codes(Messages))
  }

  /** `Errors.codes.<name>`: undefined for a name the table does not define. */
  function CodeOf(name: string): (r: Option<string>)
    ensures r.Some? <==> name in Messages
    ensures r.Some? ==> r.value == name
  {
    var codes := Definitions().codes;
    if name in codes then Some(codes[name]) else None
  }

  /** `Errors.<name>`: undefined for a name the table does not define. */
  function ErrorObject(name: string): (r: Option<ClientError>)
    ensures r.Some? <==> name in Messages
    ensures r.Some? ==> r.value == ClientError(Some(name), Messages[name])
  {
    var objects := Definitions().objects;
    if name in objects then Some(objects[name]) else None
  }

  /** The two defined errors, with their messages exactly as written. */
  lemma DefinedErrors()
    ensures ErrorObject("PARTNER_ALREADY_EXISTS") == Some(ClientError(Some("PARTNER_ALREADY_EXISTS"), "Partner already exists"))
    ensures ErrorObject("PARTNER_NOT_FOUND") == Some(ClientError(Some("PARTNER_NOT_FOUND"), "Patner not found"))
    ensures CodeOf("PARTNER_ALREADY_EXISTS") == Some("PARTNER_ALREADY_EXISTS")
    ensures CodeOf("PARTNER_NOT_FOUND") == Some("PARTNER_NOT_FOUND")
  {
  }

  /** The names the service refers to but the table does not define read as
      undefined: a ClientError built from `Errors.codes.NOT_AUTHORIZED` has
      no code, and `Errors.WALLET_ALREADY_EXISTS` is not an error at all. */
  lemma ServiceNamesUndefined()
    ensures CodeOf("NOT_AUTHORIZED") == None
    ensures ErrorObject("WALLET_ALREADY_EXISTS") == None
    ensures ErrorObject("WALLET_NOT_FOUND") == None
  {
  }
}
