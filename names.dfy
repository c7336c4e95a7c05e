/** The name table the scanner interns identifiers into: a list of strings whose
    positions are the ids.  Looking up a string that is absent appends it. */
module NameTable {
  import opened Common

  /** The first position of `s` in `table`, if any. */
  function IndexOf(table: seq<string>, s: string): (r: Option<nat>)
    ensures r.None? <==> s !in table
    ensures r.Some? ==> r.value < |table| && table[r.value] == s
    ensures r.Some? ==> forall j :: 0 <= j < r.value ==> table[j] != s
  {
    if table == [] then None
    else if table[0] == s then Some(0)
    else match IndexOf(table[1..], s)
      case None => None
      case Some(k) => Some(k + 1)
  }

  /** Intern one string: its existing id, or a new id at the end of the table. */
  function Lookup(table: seq<string>, s: string): (r: (seq<string>, nat))
    ensures r.1 < |r.0| && r.0[r.1] == s
    ensures s in table ==> r.0 == table && forall j :: 0 <= j < r.1 ==> table[j] != s
    ensures s !in table ==> r.0 == table + [s] && r.1 == |table|
  {
    match IndexOf(table, s)
    case Some(k) => (table, k)
    case None => (table + [s], |table|)
  }

  /** Intern a list of strings in order, returning the updated table and the ids. */
  function LookupAll(table: seq<string>, ss: seq<string>): (r: (seq<string>, seq<nat>))
    ensures |r.1| == |ss|
    ensures table <= r.0
    ensures forall i :: 0 <= i < |ss| ==> r.1[i] < |r.0| && r.0[r.1[i]] == ss[i]
    decreases |ss|
  {
    if ss == [] then (table, [])
    else
      var (t1, id) := Lookup(table, ss[0]);
      var (t2, ids) := LookupAll(t1, ss[1..]);
      (t2, [id] + ids)
  }

  /** The reverse lookup: the string with this id, or nothing past the end of the table. */
  function NameString(table: seq<string>, id: int): (r: Option<string>)
    ensures r.Some? <==> 0 <= id < |table|
    ensures r.Some? ==> r.value == table[id]
  {
    if 0 <= id < |table| then Some(table[id]) else None
  }
}
