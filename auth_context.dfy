/**
 * The session store: one record, `authData`, replaced only by a shallow
 * merge `{ ...prev, ...newData }`.
 */
module AuthContext {

  /** A value a session key can hold: the screens store strings and one flag. */
  datatype Value = Text(text: string) | Flag(flag: bool)

  type AuthData = map<string, Value>

  const MobileKey := "mobile"
  const IsAuthenticatedKey := "isAuthenticated"

  /** The record the provider starts with. */
  function InitialAuthData(): (d: AuthData)
    ensures d.Keys == {MobileKey} && d[MobileKey] == Text("")
    ensures IsAuthenticatedKey !in d
  {
    map[MobileKey := Text("")]
  }

  /** `{ ...prev, ...newData }`: the keys of `newData` win, every other key of `prev` stays. */
  function Merge(prev: AuthData, newData: AuthData): (r: AuthData)
    ensures r.Keys == prev.Keys + newData.Keys
    ensures forall k :: k in newData ==> r[k] == newData[k]
    ensures forall k :: k in prev && k !in newData ==> r[k] == prev[k]
  {
    prev + newData
  }

  /** Merging an empty partial record changes nothing. */
  lemma MergeEmpty(prev: AuthData)
    ensures Merge(prev, map[]) == prev
  {
    assert Merge(prev, map[]).Keys == prev.Keys;
  }

  /** Merging the same partial record twice is the same as merging it once. */
  lemma MergeIdempotent(prev: AuthData, newData: AuthData)
    ensures Merge(Merge(prev, newData), newData) == Merge(prev, newData)
  {
    var once := Merge(prev, newData);
    assert Merge(once, newData).Keys == once.Keys;
  }

  /** Two merges in a row are one merge of the combined partial records. */
  lemma MergeSequence(prev: AuthData, first: AuthData, second: AuthData)
    ensures Merge(Merge(prev, first), second) == Merge(prev, Merge(first, second))
  {
    assert Merge(Merge(prev, first), second).Keys == Merge(prev, Merge(first, second)).Keys;
  }

  /**
   * `authData.mobile` as the screens read it, with `undefined` (or a
   * non-string value) read as the falsy empty string.
   */
  function MobileOf(d: AuthData): (mobile: string)
    ensures MobileKey in d && d[MobileKey].Text? ==> mobile == d[MobileKey].text
    ensures !(MobileKey in d && d[MobileKey].Text?) ==> mobile == ""
  {
    if MobileKey in d && d[MobileKey].Text? then d[MobileKey].text else ""
  }

  class SessionStore {
    var authData: AuthData

    /** Keys are never removed, so `mobile` is always present. */
    ghost predicate Valid()
      reads this
    {
      MobileKey in authData
    }

    constructor ()
      ensures authData == InitialAuthData()
      ensures Valid()
    {
      authData := InitialAuthData();
    }

    /** `updateAuthData(newData)`. */
    method UpdateAuthData(newData: AuthData)
      requires Valid()
      modifies this
      ensures Valid()
      ensures authData == Merge(old(authData), newData)
    {
      authData := Merge(authData, newData);
    }

    function Mobile(): string
      reads this
    {
      MobileOf(authData)
    }
  }
}
