/**
 * The few JavaScript string operations the components use, on `string`
 * (a sequence of characters): `startsWith`, `split(' ')` and
 * `toUpperCase` (on the ASCII letters a-z only). `join(' ')` is here as
 * the reference inverse that pins down `split(' ')`.
 */
module Strings {

  /** `s.startsWith(prefix)`. */
  predicate StartsWith(s: string, prefix: string) {
    prefix <= s
  }

  /** `text` contains `part` as a contiguous piece. */
  ghost predicate Contains(text: string, part: string) {
    exists i :: 0 <= i && OccursAt(text, part, i)
  }

  /** `part` occurs in `text` starting at index `i`. */
  predicate OccursAt(text: string, part: string, i: nat) {
    i + |part| <= |text| && text[i..i + |part|] == part
  }

  lemma ContainsMiddle(pre: string, part: string, post: string)
    ensures OccursAt(pre + part + post, part, |pre|)
    ensures Contains(pre + part + post, part)
  {
    var text := pre + part + post;
    assert text[|pre|..|pre| + |part|] == part;
    assert OccursAt(text, part, |pre|);
  }

  /** Two parts written one after the other are found together. */
  lemma ContainsPair(pre: string, x: string, y: string, post: string)
    ensures Contains(pre + x + (y + post), x + y)
  {
    assert pre + x + (y + post) == pre + (x + y) + post;
    ContainsMiddle(pre, x + y, post);
  }

  /** Number of space characters in `s`. */
  function SpaceCount(s: string): nat {
    if s == [] then 0 else (if s[0] == ' ' then 1 else 0) + SpaceCount(s[1..])
  }

  /**
   * `s.split(' ')`: the pieces between single spaces. Two adjacent spaces
   * give an empty piece between them, and the empty string gives `[""]`.
   */
  function SplitOnSpace(s: string): (words: seq<string>)
    ensures words != []
  {
    if s == [] then [[]]
    else if s[0] == ' ' then [[]] + SplitOnSpace(s[1..])
    else
      var rest := SplitOnSpace(s[1..]);
      [[s[0]] + rest[0]] + rest[1..]
  }

  /** There is one more piece than there are spaces, and no piece holds a space. */
  lemma {:induction false} SplitOnSpaceShape(s: string)
    ensures |SplitOnSpace(s)| == SpaceCount(s) + 1
    ensures forall i :: 0 <= i < |SplitOnSpace(s)| ==> ' ' !in SplitOnSpace(s)[i]
  {
    if s != [] {
      SplitOnSpaceShape(s[1..]);
      var rest := SplitOnSpace(s[1..]);
      if s[0] != ' ' {
        assert ' ' !in [s[0]] + rest[0];
        var words := SplitOnSpace(s);
        forall i | 0 <= i < |words| ensures ' ' !in words[i] {
          if i > 0 {
            assert words[i] == rest[i];
          }
        }
      }
    }
  }

  /** `words.join(' ')`. */
  function JoinWithSpace(words: seq<string>): string {
    if words == [] then []
    else if |words| == 1 then words[0]
    else words[0] + " " + JoinWithSpace(words[1..])
  }

  /** Splitting on spaces and joining with spaces gives back the string. */
  lemma {:induction false} JoinSplit(s: string)
    ensures JoinWithSpace(SplitOnSpace(s)) == s
  {
    if s != [] {
      var rest := SplitOnSpace(s[1..]);
      JoinSplit(s[1..]);
      var words := SplitOnSpace(s);
      if s[0] == ' ' {
        assert words == [[]] + rest;
        assert JoinWithSpace(words) == [] + " " + JoinWithSpace(rest);
        assert s == " " + s[1..];
      } else {
        assert words == [[s[0]] + rest[0]] + rest[1..];
        if |rest| == 1 {
          assert JoinWithSpace(words) == [s[0]] + rest[0];
        } else {
          assert words[1..] == rest[1..];
          assert JoinWithSpace(words) == [s[0]] + rest[0] + " " + JoinWithSpace(rest[1..]);
        }
        assert s == [s[0]] + s[1..];
      }
    }
  }

  /** A prefix without spaces glues onto the first piece of the split. */
  lemma {:induction false} SplitSpaceFreePrefix(a: string, t: string)
    requires ' ' !in a
    ensures SplitOnSpace(a + t) == [a + SplitOnSpace(t)[0]] + SplitOnSpace(t)[1..]
  {
    var split := SplitOnSpace(t);
    if a == [] {
      assert a + t == t && a + split[0] == split[0];
    } else {
      assert (a + t)[0] == a[0] && (a + t)[1..] == a[1..] + t;
      assert a[0] in a;
      SplitSpaceFreePrefix(a[1..], t);
      assert [a[0]] + (a[1..] + split[0]) == a + split[0];
    }
  }

  /** Joining space-free words with spaces and splitting gives back the words. */
  lemma {:induction false} SplitJoin(words: seq<string>)
    requires words != []
    requires forall i :: 0 <= i < |words| ==> ' ' !in words[i]
    ensures SplitOnSpace(JoinWithSpace(words)) == words
  {
    if |words| == 1 {
      SplitSpaceFreePrefix(words[0], []);
      assert words[0] + [] == words[0];
      assert [words[0]] == words;
    } else {
      SplitJoin(words[1..]);
      var tail := " " + JoinWithSpace(words[1..]);
      SplitSpaceFreePrefix(words[0], tail);
      assert tail[1..] == JoinWithSpace(words[1..]);
      assert words[0] + tail == JoinWithSpace(words);
      assert SplitOnSpace(tail)[0] == [] && SplitOnSpace(tail)[1..] == words[1..];
      assert words[0] + [] == words[0];
      assert words == [words[0]] + words[1..];
    }
  }

  /** `toUpperCase` on one character, for the ASCII letters a-z. */
  function UpperChar(c: char): char {
    if 'a' <= c <= 'z' then (c as int - ('a' as int - 'A' as int)) as char else c
  }

  /** `s.toUpperCase()`, one character at a time. */
  function ToUpper(s: string): (r: string)
    ensures |r| == |s|
    ensures forall i :: 0 <= i < |s| ==> r[i] == UpperChar(s[i])
  {
    if s == [] then [] else [UpperChar(s[0])] + ToUpper(s[1..])
  }
}
