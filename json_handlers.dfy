/** json.go: the property-list edit of the `/setProperty` handler, which
    adds or removes one property name of a stored `SubEntry`, and the
    choice of message and status code in `writeError`. Authorisation,
    request parsing and the datastore calls around them are not modelled;
    the JSON body is modelled as a JSON value, not as its bytes. */
module JsonHandlers {
  import opened Wrappers

  const StatusInternalServerError := 500

  // ---------------------------------------------------------------------
  // setProperty

  /** The first index of `name` in `properties`. */
  function IndexOf(properties: seq<string>, name: string): (r: Option<nat>)
    ensures r.None? <==> name !in properties
    ensures r.Some? ==> r.value < |properties| && properties[r.value] == name &&
                        name !in properties[..r.value]
  {
    if properties == [] then None
    else if properties[0] == name then Some(0)
    else match IndexOf(properties[1..], name)
      case None => None
      case Some(k) =>
        assert properties[..k + 1] == [properties[0]] + properties[1..][..k];
        Some(k + 1)
  }

  /** The list after the edit, and whether it is written back: setting
      an absent name appends it, unsetting a present one removes its first
      occurrence, and any other request changes and writes nothing. */
  function Edited(properties: seq<string>, name: string, setProp: bool): (seq<string>, bool) {
    match IndexOf(properties, name)
    case None => if setProp then (properties + [name], true) else (properties, false)
    case Some(k) => if !setProp then (properties[..k] + properties[k + 1..], true) else (properties, false)
  }

  /** The three cases of the edit. */
  lemma EditedCases(properties: seq<string>, name: string, setProp: bool)
    ensures setProp && name !in properties ==> Edited(properties, name, setProp) == (properties + [name], true)
    ensures !setProp && name in properties ==>
              exists k :: 0 <= k < |properties| && properties[k] == name && name !in properties[..k] &&
                          Edited(properties, name, setProp) == (properties[..k] + properties[k + 1..], true)
    ensures (setProp <==> name in properties) ==> Edited(properties, name, setProp) == (properties, false)
  {
    if !setProp && name in properties {
      var k := IndexOf(properties, name).value;
      assert properties[k] == name && name !in properties[..k];
    }
  }

  /** After a set the name is present; an unset removes exactly one
      occurrence of it and nothing else. */
  lemma EditedMembership(properties: seq<string>, name: string, setProp: bool)
    ensures setProp ==> name in Edited(properties, name, setProp).0
    ensures !setProp ==> multiset(Edited(properties, name, setProp).0) == multiset(properties) - multiset{name}
    ensures Edited(properties, name, setProp).1 <==> Edited(properties, name, setProp).0 != properties
  {
    var r := Edited(properties, name, setProp);
    if !setProp {
      match IndexOf(properties, name)
      case None =>
        assert name !in multiset(properties);
      case Some(k) =>
        assert properties == properties[..k] + [name] + properties[k + 1..];
        assert multiset(properties) == multiset(properties[..k]) + multiset{name} + multiset(properties[k + 1..]);
        assert |r.0| < |properties|;
    }
    if setProp && r.1 {
      assert |r.0| > |properties|;
    }
  }

  /** The `tagIndex` loop of `setProperty`: the first index of the name,
      or -1. */
  method TagIndex(properties: seq<string>, propertyName: string) returns (tagIndex: int)
    ensures tagIndex == -1 <==> IndexOf(properties, propertyName).None?
    ensures tagIndex != -1 ==> tagIndex >= 0 && IndexOf(properties, propertyName) == Some(tagIndex as nat)
  {
    tagIndex := -1;
    var i := 0;
    while i < |properties|
      invariant 0 <= i <= |properties|
      invariant propertyName !in properties[..i]
    {
      if properties[i] == propertyName {
        tagIndex := i;
        FirstIndex(properties, propertyName, i);
        return;
      }
      assert properties[..i + 1] == properties[..i] + [properties[i]];
      i := i + 1;
    }
    assert properties[..i] == properties;
  }

  /** An occurrence with none before it is the one `IndexOf` finds. */
  lemma {:induction false} FirstIndex(properties: seq<string>, name: string, k: nat)
    requires k < |properties| && properties[k] == name && name !in properties[..k]
    ensures IndexOf(properties, name) == Some(k)
  {
    if k > 0 {
      assert properties[0] in properties[..k];
      assert properties[1..][..k - 1] == properties[1..k];
      assert forall x :: x in properties[1..k] ==> x in properties[..k];
      FirstIndex(properties[1..], name, k - 1);
    }
  }

  /** The `set` form value: only the literal `"true"` sets. */
  function SetRequested(value: string): (setProp: bool)
    ensures setProp <==> value == "true"
  {
    value == "true"
  }

  /** A stored `SubEntry`; its key is not modelled. */
  class SubEntry {
    var created: int
    var properties: seq<string>

    constructor (created: int, properties: seq<string>)
      ensures this.created == created && this.properties == properties
    {
      this.created, this.properties := created, properties;
    }

    /** The `tagIndex` search and the edit of `setProperty`; `write` says
        whether the entry is put back. */
    method SetProperty(propertyName: string, setValue: string) returns (write: bool)
      modifies this
      ensures (properties, write) == Edited(old(properties), propertyName, SetRequested(setValue))
      ensures created == old(created)
    {
      var setProp := setValue == "true";
      var tagIndex := TagIndex(properties, propertyName);

      write := false;
      if setProp && tagIndex == -1 {
        properties := properties + [propertyName];
        write := true;
      } else if !setProp && tagIndex != -1 {
        properties := properties[..tagIndex] + properties[tagIndex + 1..];
        write := true;
      }
    }
  }

  // ---------------------------------------------------------------------
  // writeError

  /** An error as `writeError` sees it: a `ReadableError` (whose source
      error is only logged) or any other error. */
  datatype HandlerError =
    | ReadableError(message: string, httpCode: int, hasSource: bool)
    | OtherError(description: string)

  /** `NewReadableError`: the status code is 500. */
  function NewReadableError(message: string, hasSource: bool): (e: HandlerError)
    ensures e.ReadableError? && e.message == message && e.httpCode == StatusInternalServerError
  {
    ReadableError(message, StatusInternalServerError, hasSource)
  }

  datatype Json = JString(s: string) | JObject(members: seq<(string, Json)>)

  datatype Response = Response(body: Json, httpCode: int)

  /** `writeError`: a readable error shows its own message and code, any
      other error a generic message with status 500; the body is a JSON
      object with the single member `errorMessage`. */
  function WriteError(err: HandlerError): (r: Response)
    ensures err.ReadableError? ==> r == Response(JObject([("errorMessage", JString(err.message))]), err.httpCode)
    ensures err.OtherError? ==>
              r == Response(JObject([("errorMessage", JString("An unexpected error has occurred"))]),
                            StatusInternalServerError)
    ensures r.body.JObject? && |r.body.members| == 1 && r.body.members[0].0 == "errorMessage"
  {
    var message := if err.ReadableError? then err.message else "An unexpected error has occurred";
    var httpCode := if err.ReadableError? then err.httpCode else StatusInternalServerError;
    Response(JObject([("errorMessage", JString(message))]), httpCode)
  }

  /** The other error's own text never reaches the client. */
  lemma OtherErrorsLookAlike(a: string, b: string)
    ensures WriteError(OtherError(a)) == WriteError(OtherError(b))
  {
  }
}
