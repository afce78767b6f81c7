/**
 * `reformatAuthResult`: the boundary adapter that renames the five snake_case
 * properties of a primary-authentication result to camelCase. A property the
 * input lacks is `undefined` in the output, modelled as `None`.
 */
module AuthResult {
  import opened Wrappers

  /** Each input property name paired with the output property it becomes. */
  const Renaming: seq<(string, string)> := [
    ("access_token", "accessToken"),
    ("expires_in", "expiresIn"),
    ("id_token", "idToken"),
    ("token_type", "tokenType"),
    ("scope", "scope")]

  /**
   * Property read: `None` when the property is missing, standing for `undefined`.
   * The adapter's values are not only strings (`expires_in` is a number), so it
   * is generic in the value type rather than reading a `JsValues.JsObject`.
   */
  function Read<V>(o: map<string, V>, key: string): Option<V>
  {
    if key in o then Some(o[key]) else None
  }

  /** The adapter: exactly the five camelCase properties, each carrying its snake_case source. */
  function Reformat<V>(authResult: map<string, V>): (r: map<string, Option<V>>)
    ensures forall i :: 0 <= i < |Renaming| ==>
      Renaming[i].1 in r && r[Renaming[i].1] == Read(authResult, Renaming[i].0)
    ensures r.Keys == set p | p in Renaming :: p.1
  {
    map[
      "accessToken" := Read(authResult, "access_token"),
      "expiresIn" := Read(authResult, "expires_in"),
      "idToken" := Read(authResult, "id_token"),
      "tokenType" := Read(authResult, "token_type"),
      "scope" := Read(authResult, "scope")]
  }

  /** The inverse renaming, dropping the properties that are `undefined`. */
  function Unformat<V>(camel: map<string, Option<V>>): map<string, V>
  {
    map i | 0 <= i < |Renaming| && Renaming[i].1 in camel && camel[Renaming[i].1].Some?
      :: Renaming[i].0 := camel[Renaming[i].1].value
  }

  /** No two renamed properties share a name on either side, so the renaming is one for one. */
  lemma RenamingIsOneForOne()
    ensures forall i, j :: 0 <= i < j < |Renaming| ==> Renaming[i].0 != Renaming[j].0
    ensures forall i, j :: 0 <= i < j < |Renaming| ==> Renaming[i].1 != Renaming[j].1
  {
  }

  /** Renaming back recovers every one of the five input properties, and nothing else. */
  lemma ReformatRoundTrip<V>(authResult: map<string, V>)
    ensures forall i :: 0 <= i < |Renaming| ==>
      Read(Unformat(Reformat(authResult)), Renaming[i].0) == Read(authResult, Renaming[i].0)
    ensures forall k :: k in Unformat(Reformat(authResult)) ==> k in authResult
  {
  }
}
