/** What a failed schema check reports: one issue per failing check, tagged
    with the path of the field it concerns. */
module Issues {
  /** A check with its own message; a value of the wrong type (or a missing
      field); a value outside an enumeration, at position `index` of an
      array. The last two carry the schema library's own wording, which is not
      part of this model. */
  datatype Issue =
    | Issue(path: string, message: string)
    | WrongType(path: string)
    | NotAnOption(path: string, index: nat)

  /** Tags each message of one field with that field's path. */
  function AtPath(path: string, messages: seq<string>): (r: seq<Issue>)
    ensures |r| == |messages|
    ensures forall i :: 0 <= i < |r| ==> r[i] == Issue(path, messages[i])
  {
    if messages == [] then [] else [Issue(path, messages[0])] + AtPath(path, messages[1..])
  }
}
