/** Decoded JSON values exchanged with the remote control plane, and the
    errors that escape the collector's code paths as exceptions. */
module Values {

  datatype Option<+T> = None | Some(value: T)

  /** A scalar JSON value as decoded from a response body. */
  datatype Scalar = Text(text: string) | Number(number: int)

  /** A decoded JSON object whose key order is never observed
      (a directory record, an instance attribute record). */
  type Record = map<string, Scalar>

  /** The entries of an ordered JSON object have pairwise distinct keys. */
  ghost predicate DistinctKeys(fields: seq<(string, Scalar)>)
  {
    forall i, j :: 0 <= i < j < |fields| ==> fields[i].0 != fields[j].0
  }

  /** A decoded JSON object whose iteration order is observed
      (a resource-usage response): its entries in insertion order. */
  type Fields = f: seq<(string, Scalar)> | DistinctKeys(f) witness []

  /** `d[key]` on an ordered JSON object; None where Python raises KeyError. */
  function Find(fields: seq<(string, Scalar)>, key: string): (r: Option<Scalar>)
    ensures r.None? <==> forall i :: 0 <= i < |fields| ==> fields[i].0 != key
    ensures r.Some? ==> exists i :: 0 <= i < |fields| && fields[i] == (key, r.value)
  {
    if |fields| == 0 then None
    else if fields[0].0 == key then Some(fields[0].1)
    else Find(fields[1..], key)
  }

  /** The exceptions the collector's code lets escape, by kind. */
  datatype Error =
    | MissingKey(key: string)        // KeyError on a JSON object or the config
    | UnknownEngine(engine: Scalar)  // KeyError on performance_list[Engine]
    | NotANumber(key: string)        // arithmetic on a field that is not a number
    | EmptyAttributeList             // IndexError on Items.DBInstanceAttribute[0]
    | SentinelPayload                // AttributeError: decoding the `[]` sentinel
    | CredentialIncomplete           // "Credential in config file not fully configured!"
    | NullSection(section: string)   // TypeError: subscripting a null configuration section
    | NullKeyList(engineName: string) // TypeError: len() of an engine's null key list

  datatype Result<+T> = Ok(value: T) | Err(error: Error)
}
