/**
 * String helpers of the settings loader: trimming of blanks and splitting of a
 * comma separated list the way a std::getline loop splits it.
 */
module Helper {

  /** The default whitespace set of trim: space and tab. */
  predicate IsBlank(c: char) {
    c == ' ' || c == '\t'
  }

  predicate AllBlank(s: string) {
    forall k :: 0 <= k < |s| ==> IsBlank(s[k])
  }

  /** find_first_not_of: the index of the first non-blank character, |s| when there is none. */
  function FirstNotBlank(s: string): (i: nat)
    ensures i <= |s|
    ensures forall k :: 0 <= k < i ==> IsBlank(s[k])
    ensures i < |s| ==> !IsBlank(s[i])
  {
    if s == [] || !IsBlank(s[0]) then 0 else 1 + FirstNotBlank(s[1..])
  }

  /** One past find_last_not_of: the length of s without its trailing blanks. */
  function ContentEnd(s: string): (j: nat)
    ensures j <= |s|
    ensures forall k :: j <= k < |s| ==> IsBlank(s[k])
    ensures j > 0 ==> !IsBlank(s[j - 1])
  {
    if s == [] || !IsBlank(s[|s| - 1]) then |s| else ContentEnd(s[..|s| - 1])
  }

  /**
   * Helper::trim: s without its leading and trailing spaces and tabs; the empty
   * string when s holds nothing else.
   */
  function Trim(s: string): (r: string)
    ensures r == [] <==> AllBlank(s)
    ensures r != [] ==> !IsBlank(r[0]) && !IsBlank(r[|r| - 1])
    ensures exists b :: 0 <= b <= |s| - |r| && r == s[b..b + |r|] && AllBlank(s[..b]) && AllBlank(s[b + |r|..])
  {
    var b := FirstNotBlank(s);
    if b == |s| then
      assert s[..0] == [] && s[0..] == s;
      []
    else
      var e := ContentEnd(s);
      var r := s[b..e];
      assert r == s[b..b + |r|];
      assert AllBlank(s[..b]) by {
        forall k | 0 <= k < b ensures IsBlank(s[..b][k]) { assert s[..b][k] == s[k]; }
      }
      assert AllBlank(s[e..]) by {
        forall k | 0 <= k < |s| - e ensures IsBlank(s[e..][k]) { assert s[e..][k] == s[e + k]; }
      }
      r
  }

  /** Trimming is idempotent. */
  lemma TrimTwice(s: string)
    ensures Trim(Trim(s)) == Trim(s)
  {
    var r := Trim(s);
    if r != [] {
      assert FirstNotBlank(r) == 0;
      assert ContentEnd(r) == |r|;
      assert r[0..|r|] == r;
    }
  }

  /** The index of the first sep in s, |s| when s holds none. */
  function SepIndex(s: string, sep: char): (i: nat)
    ensures i <= |s|
    ensures i < |s| ==> s[i] == sep
    ensures forall k :: 0 <= k < i ==> s[k] != sep
  {
    if s == [] || s[0] == sep then 0 else 1 + SepIndex(s[1..], sep)
  }

  /**
   * The elements a loop `while (std::getline(stream, element, sep))` reads from
   * s: the pieces between separators, where the empty piece after a final
   * separator is never read and the empty string yields nothing.
   */
  function Fields(s: string, sep: char): (fs: seq<string>)
    ensures s != [] ==> |fs| >= 1 && fs[0] == s[..SepIndex(s, sep)]
    decreases |s|
  {
    if s == [] then []
    else
      var i := SepIndex(s, sep);
      if i == |s| then [s] else [s[..i]] + Fields(s[i + 1..], sep)
  }

  /** The fields glued back together with sep between them. */
  function Join(fs: seq<string>, sep: char): (r: string)
  {
    if fs == [] then []
    else if |fs| == 1 then fs[0]
    else fs[0] + [sep] + Join(fs[1..], sep)
  }

  lemma JoinCons(a: string, fs: seq<string>, sep: char)
    requires fs != []
    ensures Join([a] + fs, sep) == a + [sep] + Join(fs, sep)
  {
    assert ([a] + fs)[1..] == fs;
  }

  /** A non-empty string always yields at least one field. */
  lemma FieldsNonEmpty(s: string, sep: char)
    ensures Fields(s, sep) == [] <==> s == []
  {
  }

  /** No field holds the separator. */
  lemma {:induction false} FieldsHaveNoSep(s: string, sep: char)
    ensures forall k :: 0 <= k < |Fields(s, sep)| ==> sep !in Fields(s, sep)[k]
    decreases |s|
  {
    if s != [] {
      var i := SepIndex(s, sep);
      if i == |s| {
        assert s[..i] == s;
      } else {
        FieldsHaveNoSep(s[i + 1..], sep);
      }
    }
  }

  /** The final separator of s, which yields no field of its own. */
  function LostSep(s: string, sep: char): (r: string)
  {
    if s != [] && s[|s| - 1] == sep then [sep] else []
  }

  /**
   * Splitting loses nothing but a final separator: joining the fields again
   * gives back s, less its last character when that is sep.
   */
  lemma {:induction false} JoinFields(s: string, sep: char)
    ensures Join(Fields(s, sep), sep) + LostSep(s, sep) == s
    decreases |s|
  {
    if s != [] {
      var i := SepIndex(s, sep);
      if i == |s| {
        assert s[..i] == s;
      } else {
        var rest := s[i + 1..];
        var head := s[..i];
        assert s == head + [sep] + rest;
        assert Fields(s, sep) == [head] + Fields(rest, sep);
        if rest == [] {
          assert Join(Fields(s, sep), sep) == head;
        } else {
          JoinFields(rest, sep);
          FieldsNonEmpty(rest, sep);
          JoinCons(head, Fields(rest, sep), sep);
          assert LostSep(s, sep) == LostSep(rest, sep);
          assert Join(Fields(s, sep), sep) + LostSep(s, sep)
              == head + [sep] + (Join(Fields(rest, sep), sep) + LostSep(rest, sep));
        }
      }
    }
  }

  /** The characterisation of SepIndex a loop can establish. */
  lemma SepIndexIs(s: string, sep: char, j: nat)
    requires j <= |s|
    requires forall k :: 0 <= k < j ==> s[k] != sep
    requires j < |s| ==> s[j] == sep
    ensures SepIndex(s, sep) == j
  {
  }

  /** The separator search std::getline performs: from pos, up to the next sep or the end. */
  method FindSep(s: string, sep: char, pos: nat) returns (j: nat)
    requires pos <= |s|
    ensures j == pos + SepIndex(s[pos..], sep)
  {
    j := pos;
    while j < |s| && s[j] != sep
      invariant pos <= j <= |s|
      invariant forall k :: pos <= k < j ==> s[k] != sep
    {
      j := j + 1;
    }
    SepIndexIs(s[pos..], sep, j - pos);
  }

  /** One getline step: a non-empty rest yields its first field and continues after the separator. */
  lemma FieldsStep(s: string, sep: char, pos: nat, j: nat)
    requires pos < |s|
    requires j == pos + SepIndex(s[pos..], sep)
    ensures j < |s| ==> Fields(s[pos..], sep) == [s[pos..j]] + Fields(s[j + 1..], sep)
    ensures j == |s| ==> Fields(s[pos..], sep) == [s[pos..j]]
  {
    var tail := s[pos..];
    assert tail[..j - pos] == s[pos..j];
    if j < |s| {
      assert tail[j - pos + 1..] == s[j + 1..];
    } else {
      assert tail == s[pos..j];
    }
  }

  /**
   * Helper::splitString: trims str, then collects every field a getline loop
   * reads with delimiter sep. The fields are not trimmed one by one.
   */
  method SplitString(str: string, sep: char) returns (result: set<string>)
    ensures forall f :: f in result <==> f in Fields(Trim(str), sep)
  {
    var myStr := Trim(str);
    var pos := 0;
    result := {};
    ghost var done: seq<string> := [];
    while pos < |myStr|
      invariant pos <= |myStr|
      invariant done + Fields(myStr[pos..], sep) == Fields(myStr, sep)
      invariant forall f :: f in result <==> f in done
      decreases |myStr| - pos
    {
      var j := FindSep(myStr, sep, pos);
      var element := myStr[pos..j];
      FieldsStep(myStr, sep, pos, j);
      var next := if j < |myStr| then j + 1 else j;
      assert Fields(myStr[pos..], sep) == [element] + Fields(myStr[next..], sep) by {
        if j == |myStr| { assert myStr[next..] == []; }
      }
      assert done + Fields(myStr[pos..], sep) == (done + [element]) + Fields(myStr[next..], sep);
      result := result + {element};
      done := done + [element];
      pos := next;
    }
    assert myStr[pos..] == [];
  }
}
