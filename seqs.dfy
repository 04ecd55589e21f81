/** The ordered "first that succeeds" scan that the resolution engine uses
    twice: over the override list and over a template list (Rust's
    `Iterator::find_map`). */
module Seqs {
  import opened Wrappers

  /** The first result `f` produces along `s`, absent when it fails
      everywhere. */
  function FindMap<T, U>(s: seq<T>, f: T -> Option<U>): (r: Option<U>)
    ensures r.None? <==> forall j :: 0 <= j < |s| ==> f(s[j]).None?
    ensures r.Some? ==> exists i :: 0 <= i < |s| && f(s[i]) == r && forall j :: 0 <= j < i ==> f(s[j]).None?
  {
    if s == [] then None
    else
      match f(s[0])
      case Some(u) => Some(u)
      case None => FindMap(s[1..], f)
  }

  /** The scan depends only on the values `f` takes on `s`. */
  lemma FindMapExt<T, U>(s: seq<T>, f: T -> Option<U>, g: T -> Option<U>)
    requires forall i :: 0 <= i < |s| ==> f(s[i]) == g(s[i])
    ensures FindMap(s, f) == FindMap(s, g)
  {
  }

  /** Inserting an element on which `f` fails, anywhere, does not change
      the scan. */
  lemma {:induction false} FindMapSkip<T, U>(s: seq<T>, f: T -> Option<U>, x: T, i: nat)
    requires f(x).None?
    requires i <= |s|
    ensures FindMap(s[..i] + [x] + s[i..], f) == FindMap(s, f)
  {
    var s' := s[..i] + [x] + s[i..];
    if i == 0 {
      assert s'[0] == x && s'[1..] == s;
    } else {
      assert s'[0] == s[0];
      assert s'[1..] == s[1..][..i - 1] + [x] + s[1..][i - 1..];
      FindMapSkip(s[1..], f, x, i - 1);
    }
  }
}
