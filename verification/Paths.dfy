/** Relative paths: a text with slashes, and the list of its components. */
module Paths {
  import opened Protocol

  function Split(s: string): seq<string> {
    if s == [] then [""]
    else if s[0] == '/' then [""] + Split(s[1..])
    else var rest := Split(s[1..]); if rest == [] then [[s[0]]] else [[s[0]] + rest[0]] + rest[1..]
  }

  function Join(parts: seq<string>): string {
    if parts == [] then ""
    else if |parts| == 1 then parts[0]
    else parts[0] + "/" + Join(parts[1..])
  }

  /** What a name read from a manifest, a listing or the journal must be. */
  predicate IsRelative(s: string) {
    |s| <= 1024 && |Split(s)| <= 16 && forall i :: 0 <= i < |Split(s)| ==> SafeName(Split(s)[i])
  }

  lemma {:induction false} JoinSplit(s: string)
    ensures Split(s) != [] && Join(Split(s)) == s
  {
    if s != [] {
      JoinSplit(s[1..]);
      var rest := Split(s[1..]);
      if s[0] == '/' {
        assert ([""] + rest)[1..] == rest;
      } else {
        assert ([[s[0]] + rest[0]] + rest[1..])[1..] == rest[1..];
        assert s == [s[0]] + s[1..];
      }
    }
  }

  predicate NoSlash(s: string) {
    forall i :: 0 <= i < |s| ==> s[i] != '/'
  }

  lemma {:induction false} SplitOne(s: string, tail: string)
    requires NoSlash(s)
    ensures Split(s) == [s] && Split(s + "/" + tail) == [s] + Split(tail)
  {
    if s == [] {
      assert s + "/" + tail == "/" + tail && ("/" + tail)[1..] == tail;
    } else {
      assert (s + "/" + tail)[1..] == s[1..] + "/" + tail;
      SplitOne(s[1..], tail);
      assert [s[0]] + s[1..] == s;
      assert ([s[1..]] + Split(tail))[1..] == Split(tail);
    }
  }

  /** A joined path splits into its components again. */
  lemma {:induction false} SplitJoin(parts: seq<string>)
    requires parts != [] && forall i :: 0 <= i < |parts| ==> NoSlash(parts[i])
    ensures Split(Join(parts)) == parts
  {
    if |parts| == 1 {
      SplitOne(parts[0], "");
    } else {
      SplitJoin(parts[1..]);
      SplitOne(parts[0], Join(parts[1..]));
    }
  }

  /** Prefixing a relative path with more components. */
  lemma {:induction false} JoinMore(parts: seq<string>, more: seq<string>)
    requires parts != [] && more != []
    ensures Join(parts + more) == Join(parts) + "/" + Join(more)
  {
    if |parts| == 1 {
      assert (parts + more)[1..] == more;
    } else {
      JoinMore(parts[1..], more);
      assert (parts + more)[1..] == parts[1..] + more;
    }
  }

  /** Two names with the same components are the same. */
  lemma SplitInjective(a: string, b: string)
    requires Split(a) == Split(b)
    ensures a == b
  {
    JoinSplit(a);
    JoinSplit(b);
  }
}
