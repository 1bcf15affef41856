/**
 * Locating the timestamp field of a record: `value.replaceAll("  ", " ")`,
 * `split(" ")`, token 6, and `substring(1, length - 1)` to strip its brackets.
 */
module Extraction {
  import opened Wrappers

  /** No two consecutive spaces. */
  predicate SingleSpaced(s: string) {
    forall i :: 0 <= i < |s| - 1 ==> !(s[i] == ' ' && s[i + 1] == ' ')
  }

  /** The characters of s other than spaces, in order. */
  function WithoutSpaces(s: string): string {
    if s == [] then [] else (if s[0] == ' ' then [] else [s[0]]) + WithoutSpaces(s[1..])
  }

  /**
   * `replaceAll("  ", " ")`: one left-to-right pass replacing each
   * non-overlapping pair of spaces by one space.
   */
  function CollapseDoubleSpaces(s: string): (r: string)
    ensures |r| <= |s|
  {
    if |s| >= 2 && s[0] == ' ' && s[1] == ' ' then " " + CollapseDoubleSpaces(s[2..])
    else if s == [] then []
    else [s[0]] + CollapseDoubleSpaces(s[1..])
  }

  /** The pass only removes spaces: every other character survives, in order. */
  lemma {:induction false} CollapseKeepsWords(s: string)
    ensures WithoutSpaces(CollapseDoubleSpaces(s)) == WithoutSpaces(s)
  {
    if |s| >= 2 && s[0] == ' ' && s[1] == ' ' {
      CollapseKeepsWords(s[2..]);
      assert WithoutSpaces(s) == WithoutSpaces(s[1..]);
      assert s[1..][1..] == s[2..];
    } else if s != [] {
      CollapseKeepsWords(s[1..]);
    }
  }

  /** A string without double spaces passes through unchanged. */
  lemma {:induction false} CollapseKeepsSingleSpaced(s: string)
    requires SingleSpaced(s)
    ensures CollapseDoubleSpaces(s) == s
  {
    if s != [] {
      CollapseKeepsSingleSpaced(s[1..]);
    }
  }

  /** One pass only: a run of four spaces becomes two, still a double space. */
  lemma CollapseIsOnePass()
    ensures CollapseDoubleSpaces("a    b") == "a  b"
    ensures !SingleSpaced(CollapseDoubleSpaces("a    b"))
  {
    assert CollapseDoubleSpaces("    b") == "  " + CollapseDoubleSpaces("b");
    assert "a  b"[1] == ' ' && "a  b"[2] == ' ';
  }

  /** Splitting on every space, keeping every piece (empty ones included). */
  function SplitOnSpace(s: string): (r: seq<string>)
    ensures |r| >= 1
    ensures forall k :: 0 <= k < |r| ==> ' ' !in r[k]
  {
    if s == [] then [""]
    else
      var rest := SplitOnSpace(s[1..]);
      if s[0] == ' ' then [""] + rest else [[s[0]] + rest[0]] + rest[1..]
  }

  /** The pieces put back together with one space between neighbours. */
  function Join(pieces: seq<string>): string
    requires |pieces| >= 1
  {
    if |pieces| == 1 then pieces[0] else pieces[0] + " " + Join(pieces[1..])
  }

  /** Splitting loses nothing: joining the pieces gives the string back. */
  lemma {:induction false} JoinOfSplit(s: string)
    ensures Join(SplitOnSpace(s)) == s
  {
    if s != [] {
      var rest := SplitOnSpace(s[1..]);
      JoinOfSplit(s[1..]);
      if s[0] != ' ' && |rest| > 1 {
        assert Join(rest) == rest[0] + " " + Join(rest[1..]);
        assert ([[s[0]] + rest[0]] + rest[1..])[1..] == rest[1..];
      }
    }
  }

  lemma {:induction false} SplitAfterWord(w: string, x: string)
    requires ' ' !in w
    ensures SplitOnSpace(w + " " + x) == [w] + SplitOnSpace(x)
  {
    if w == [] {
      assert w + " " + x == [' '] + x;
      assert (w + " " + x)[1..] == x;
    } else {
      assert (w + " " + x)[1..] == w[1..] + " " + x;
      SplitAfterWord(w[1..], x);
      assert [w[0]] + w[1..] == w;
    }
  }

  lemma {:induction false} SplitOfWord(w: string)
    requires ' ' !in w
    ensures SplitOnSpace(w) == [w]
  {
    if w != [] {
      SplitOfWord(w[1..]);
      assert [w[0]] + w[1..] == w;
    }
  }

  /** Space-free pieces come back out of their join unchanged. */
  lemma {:induction false} SplitOfJoin(pieces: seq<string>)
    requires |pieces| >= 1
    requires forall k :: 0 <= k < |pieces| ==> ' ' !in pieces[k]
    ensures SplitOnSpace(Join(pieces)) == pieces
  {
    if |pieces| == 1 {
      SplitOfWord(pieces[0]);
    } else {
      SplitOfJoin(pieces[1..]);
      SplitAfterWord(pieces[0], Join(pieces[1..]));
    }
  }

  /** Drops the empty pieces at the end, as `String.split` does. */
  function DropTrailingEmpty(pieces: seq<string>): (r: seq<string>)
    ensures |r| <= |pieces| && r == pieces[..|r|]
    ensures r != [] ==> r[|r| - 1] != ""
    ensures forall k :: |r| <= k < |pieces| ==> pieces[k] == ""
  {
    if pieces == [] then []
    else if pieces[|pieces| - 1] == "" then DropTrailingEmpty(pieces[..|pieces| - 1])
    else pieces
  }

  /** Nothing but spaces. */
  predicate OnlySpaces(t: string) {
    forall i :: 0 <= i < |t| ==> t[i] == ' '
  }

  /** A run of k spaces. */
  function Spaces(k: nat): (r: string)
    ensures |r| == k && OnlySpaces(r)
  {
    seq(k, _ => ' ')
  }

  lemma {:induction false} JoinSnoc(pieces: seq<string>, x: string)
    requires |pieces| >= 1
    ensures Join(pieces + [x]) == Join(pieces) + " " + x
  {
    if |pieces| > 1 {
      assert (pieces + [x])[1..] == pieces[1..] + [x];
      JoinSnoc(pieces[1..], x);
    }
  }

  /** Dropping k trailing empty pieces drops the k spaces that joined them. */
  lemma {:induction false} JoinDropTrailing(pieces: seq<string>)
    requires |pieces| >= 1
    ensures var r := DropTrailingEmpty(pieces);
      if r == [] then OnlySpaces(Join(pieces))
      else Join(pieces) == Join(r) + Spaces(|pieces| - |r|)
  {
    var last := |pieces| - 1;
    if pieces[last] != "" {
      assert Join(pieces) + Spaces(0) == Join(pieces);
    } else if last > 0 {
      var front := pieces[..last];
      assert pieces == front + [""];
      JoinSnoc(front, "");
      JoinDropTrailing(front);
      var r := DropTrailingEmpty(front);
      if r != [] {
        assert Spaces(|front| - |r|) + " " == Spaces(|pieces| - |r|);
      }
    }
  }

  /**
   * `s.split(" ")`: the string itself when it holds no space. Otherwise the
   * space-free tokens whose single-spaced join is s with its trailing spaces
   * cut off, the last token non-empty; none at all when s is only spaces.
   */
  function JavaSplit(s: string): (r: seq<string>)
    ensures forall k :: 0 <= k < |r| ==> ' ' !in r[k]
    ensures ' ' !in s ==> r == [s]
    ensures ' ' in s && r == [] ==> OnlySpaces(s)
    ensures ' ' in s && r != [] ==>
      r[|r| - 1] != "" && |Join(r)| <= |s| && s[..|Join(r)|] == Join(r) && OnlySpaces(s[|Join(r)|..])
  {
    if ' ' !in s then [s]
    else
      var pieces := SplitOnSpace(s);
      JoinOfSplit(s);
      JoinDropTrailing(pieces);
      var r := DropTrailingEmpty(pieces);
      assert r != [] ==> s[|Join(r)|..] == Spaces(|pieces| - |r|);
      r
  }

  /** The tokens of a record value after the one-pass collapse. */
  function Tokens(value: string): seq<string> {
    JavaSplit(CollapseDoubleSpaces(value))
  }

  /**
   * The date field of a record: token 6 without its first and last
   * character. `values[6]` throws when there are fewer than seven tokens, and
   * `substring(1, length - 1)` throws when the token is shorter than two.
   */
  function ExtractDateField(value: string): (r: Result<string>)
    ensures r.Ok? <==> |Tokens(value)| >= 7 && |Tokens(value)[6]| >= 2
    ensures r.Ok? ==> ' ' !in r.value
    ensures r.Ok? ==>
      var field := Tokens(value)[6];
      field == [field[0]] + r.value + [field[|field| - 1]]
  {
    var tokens := Tokens(value);
    if |tokens| < 7 then Err("ArrayIndexOutOfBoundsException")
    else if |tokens[6]| < 2 then Err("StringIndexOutOfBoundsException")
    else
      var field := tokens[6][1..|tokens[6]| - 1];
      assert forall c :: c in field ==> c in tokens[6];
      Ok(field)
  }

  /** A join of non-empty, space-free words has no double space. */
  lemma {:induction false} JoinIsSingleSpaced(words: seq<string>)
    requires |words| >= 1
    requires forall k :: 0 <= k < |words| ==> words[k] != "" && ' ' !in words[k]
    ensures SingleSpaced(Join(words))
    ensures |words| >= 2 ==> ' ' in Join(words)
  {
    if |words| > 1 {
      JoinIsSingleSpaced(words[1..]);
      var w, j := words[0], Join(words[1..]);
      var s := w + " " + j;
      assert s[|w|] == ' ';
      assert j[0] != ' ' by {
        assert words[1..][0] != "" && ' ' !in words[1..][0];
        if |words| == 2 {
          assert j == words[1];
        } else {
          assert j == words[1] + " " + Join(words[2..]) by {
            assert words[1..][1..] == words[2..];
          }
        }
      }
      forall i | 0 <= i < |s| - 1
        ensures !(s[i] == ' ' && s[i + 1] == ' ')
      {
        if i < |w| - 1 {
          assert s[i] == w[i];
        } else if i == |w| - 1 {
          assert s[i] == w[i];
        } else if i == |w| {
          assert s[i + 1] == j[0];
        } else {
          assert s[i] == j[i - |w| - 1] && s[i + 1] == j[i - |w|];
        }
      }
    }
  }

  /** Splitting a single-spaced join of non-empty, space-free words gives the words back. */
  lemma JavaSplitOfJoin(words: seq<string>)
    requires |words| >= 1
    requires forall k :: 0 <= k < |words| ==> words[k] != "" && ' ' !in words[k]
    ensures JavaSplit(Join(words)) == words
  {
    JoinIsSingleSpaced(words);
    if |words| == 1 {
      assert Join(words) == words[0];
    } else {
      SplitOfJoin(words);
    }
  }

  /** A word passes through the collapse unchanged. */
  lemma {:induction false} CollapseWord(w: string, rest: string)
    requires ' ' !in w
    ensures CollapseDoubleSpaces(w + rest) == w + CollapseDoubleSpaces(rest)
  {
    if w != [] {
      assert (w + rest)[0] == w[0] != ' ';
      assert (w + rest)[1..] == w[1..] + rest;
      CollapseWord(w[1..], rest);
      assert [w[0]] + w[1..] == w;
      assert [w[0]] + (w[1..] + CollapseDoubleSpaces(rest)) == w + CollapseDoubleSpaces(rest);
    } else {
      assert w + rest == rest;
    }
  }

  /**
   * A run of k spaces up to the next non-space character (or the end) comes
   * out of the pass as a run of ceil(k / 2) spaces.
   */
  lemma {:induction false} CollapseSpaceRun(k: nat, rest: string)
    requires rest == [] || rest[0] != ' '
    ensures CollapseDoubleSpaces(Spaces(k) + rest) == Spaces((k + 1) / 2) + CollapseDoubleSpaces(rest)
  {
    var s := Spaces(k) + rest;
    if k == 0 {
      assert s == rest;
    } else if k == 1 {
      assert s[1..] == rest;
      assert Spaces(1) == " ";
    } else {
      assert s[2..] == Spaces(k - 2) + rest;
      CollapseSpaceRun(k - 2, rest);
      assert " " + Spaces((k - 1) / 2) == Spaces((k + 1) / 2);
    }
  }

  /** Words with a run of gaps[i] spaces between words i and i + 1. */
  function JoinGaps(words: seq<string>, gaps: seq<nat>): string
    requires |words| >= 1 && |gaps| == |words| - 1
  {
    if |words| == 1 then words[0] else words[0] + Spaces(gaps[0]) + JoinGaps(words[1..], gaps[1..])
  }

  /** The collapse turns gaps of one or two spaces into single spaces. */
  lemma {:induction false} CollapseGappedRecord(words: seq<string>, gaps: seq<nat>)
    requires |words| >= 1 && |gaps| == |words| - 1
    requires forall k :: 0 <= k < |words| ==> words[k] != "" && ' ' !in words[k]
    requires forall k :: 0 <= k < |gaps| ==> 1 <= gaps[k] <= 2
    ensures CollapseDoubleSpaces(JoinGaps(words, gaps)) == Join(words)
  {
    if |words| == 1 {
      CollapseWord(words[0], []);
      assert words[0] + [] == words[0];
    } else {
      var tail := JoinGaps(words[1..], gaps[1..]);
      CollapseGappedRecord(words[1..], gaps[1..]);
      assert tail[0] == words[1][0] by {
        if |words| > 2 {
          assert tail == words[1] + (Spaces(gaps[1]) + JoinGaps(words[2..], gaps[2..]));
        }
      }
      assert JoinGaps(words, gaps) == words[0] + (Spaces(gaps[0]) + tail);
      CollapseWord(words[0], Spaces(gaps[0]) + tail);
      CollapseSpaceRun(gaps[0], tail);
      assert Spaces((gaps[0] + 1) / 2) == " ";
    }
  }

  /**
   * A well-formed record, words separated by one or two spaces with token 6 a
   * bracketed timestamp text, yields exactly that text.
   */
  lemma ExtractFromRecord(words: seq<string>, gaps: seq<nat>, open: char, text: string, close: char)
    requires |words| >= 7 && |gaps| == |words| - 1
    requires forall k :: 0 <= k < |words| ==> words[k] != "" && ' ' !in words[k]
    requires forall k :: 0 <= k < |gaps| ==> 1 <= gaps[k] <= 2
    requires words[6] == [open] + text + [close]
    ensures ExtractDateField(JoinGaps(words, gaps)) == Ok(text)
  {
    var line := JoinGaps(words, gaps);
    CollapseGappedRecord(words, gaps);
    JavaSplitOfJoin(words);
    assert Tokens(line) == words;
  }

  /**
   * A gap of three spaces survives as two, which leaves an empty token and
   * shifts every later token by one.
   */
  lemma ThreeSpaceGapShiftsTokens()
    ensures Tokens("a   b") == ["a", "", "b"]
  {
    assert "a   b" == "a" + (Spaces(3) + "b");
    CollapseWord("a", Spaces(3) + "b");
    CollapseSpaceRun(3, "b");
    CollapseWord("b", []);
    assert Spaces(2) == "  ";
    assert CollapseDoubleSpaces("a   b") == "a  b";
    SplitOfWord("b");
    assert "" + " " + "b" == " b";
    SplitAfterWord("", "b");
    assert "a" + " " + " b" == "a  b";
    SplitAfterWord("a", " b");
  }

  /** A record of fewer than seven words has no date field: extraction throws. */
  lemma ShortRecordIsFatal(words: seq<string>)
    requires 1 <= |words| < 7
    requires forall k :: 0 <= k < |words| ==> words[k] != "" && ' ' !in words[k]
    ensures ExtractDateField(Join(words)).Err?
  {
    var line := Join(words);
    JoinIsSingleSpaced(words);
    CollapseKeepsSingleSpaced(line);
    SplitOfJoin(words);
  }
}
