/** Closed-set mappings from display names to wire tokens.

    Each enum converter of the step is a `switch` over string literals whose
    cases are tried in the order they are written. A `Table` lists those cases
    in the same order, and `Lookup` is the first-match search the `switch`
    performs. */
module Tables {
  import opened Wrappers

  /** Pairs (display name, wire token), in the order of the source's cases. */
  type Table = seq<(string, string)>

  /** Every display name the table accepts. */
  function Names(t: Table): set<string> {
    set i | 0 <= i < |t| :: t[i].0
  }

  /** Every wire token the table can produce. */
  function Tokens(t: Table): set<string> {
    set i | 0 <= i < |t| :: t[i].1
  }

  /** No display name is listed twice (a Go `switch` rejects duplicate cases). */
  predicate DistinctNames(t: Table) {
    forall i, j :: 0 <= i < j < |t| ==> t[i].0 != t[j].0
  }

  /** No wire token is produced by two display names. */
  predicate DistinctTokens(t: Table) {
    forall i, j :: 0 <= i < j < |t| ==> t[i].1 != t[j].1
  }

  /** The same pairs with names and tokens exchanged. */
  function Swap(t: Table): (s: Table)
    ensures |s| == |t|
    ensures forall i :: 0 <= i < |t| ==> s[i] == (t[i].1, t[i].0)
  {
    if |t| == 0 then [] else [(t[0].1, t[0].0)] + Swap(t[1..])
  }

  /** Position of the first case whose name is `name`; `|t|` when no case matches. */
  function FindName(t: Table, name: string): (i: nat)
    ensures i <= |t|
    ensures forall j :: 0 <= j < i ==> t[j].0 != name
    ensures i < |t| ==> t[i].0 == name
  {
    if |t| == 0 then 0
    else if t[0].0 == name then 0
    else 1 + FindName(t[1..], name)
  }

  /** The token of the first case named `name`, if any. */
  function Lookup(t: Table, name: string): (r: Option<string>)
    ensures r.Some? <==> name in Names(t)
    ensures r.Some? ==> (name, r.value) in t
    ensures DistinctNames(t) ==> forall i :: 0 <= i < |t| && t[i].0 == name ==> r == Some(t[i].1)
  {
    var i := FindName(t, name);
    if i < |t| then Some(t[i].1) else None
  }

  /** The display name that produces `token`, if any: the inverse of `Lookup`. */
  function ReverseLookup(t: Table, token: string): (r: Option<string>)
    ensures r.Some? <==> token in Tokens(t)
    ensures r.Some? ==> (r.value, token) in t
  {
    var s := Swap(t);
    assert Names(s) == Tokens(t);
    var r := Lookup(s, token);
    assert r.Some? ==> exists i :: 0 <= i < |s| && s[i] == (token, r.value);
    r
  }

  /** Looking a name up and then reversing the token gives the name back. */
  lemma LookupRoundTrip(t: Table, name: string)
    requires DistinctNames(t) && DistinctTokens(t)
    requires name in Names(t)
    ensures Lookup(t, name).Some?
    ensures ReverseLookup(t, Lookup(t, name).value) == Some(name)
  {
    var token := Lookup(t, name).value;
    var i :| 0 <= i < |t| && t[i] == (name, token);
    var back := ReverseLookup(t, token);
    var j :| 0 <= j < |t| && t[j] == (back.value, token);
    assert i == j;
  }

  /** Reversing a token and then looking the name up gives the token back. */
  lemma ReverseLookupRoundTrip(t: Table, token: string)
    requires DistinctNames(t) && DistinctTokens(t)
    requires token in Tokens(t)
    ensures ReverseLookup(t, token).Some?
    ensures Lookup(t, ReverseLookup(t, token).value) == Some(token)
  {
    var name := ReverseLookup(t, token).value;
    var i :| 0 <= i < |t| && t[i] == (name, token);
  }
}
