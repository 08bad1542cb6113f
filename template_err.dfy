// Making a template execution error readable: the keys a template referred
// to but did not get, as "<.key>" in the error text, are listed; an error
// naming none is wrapped as it is.

module TemplateErr {
  import opened Common

  /** \w: an ASCII letter, a digit or '_'. */
  predicate IsWordChar(c: char)
  {
    ('a' <= c <= 'z') || ('A' <= c <= 'Z') || ('0' <= c <= '9') || c == '_'
  }

  /** The length of the run of word characters `s` starts with. */
  function WordLen(s: string): (n: nat)
    ensures n <= |s|
    ensures forall i :: 0 <= i < n ==> IsWordChar(s[i])
    ensures n < |s| ==> !IsWordChar(s[n])
  {
    if |s| > 0 && IsWordChar(s[0]) then 1 + WordLen(s[1..]) else 0
  }

  /** The key of a match of `<\.(\w*)>` starting at the front of `s`, if one does. */
  function MatchAtFront(s: string): (r: Option<string>)
    ensures r.Some? ==> |s| >= |r.value| + 3 && s[..|r.value| + 3] == "<." + r.value + ">"
    ensures r.Some? ==> forall i :: 0 <= i < |r.value| ==> IsWordChar(r.value[i])
    ensures |s| > 0 && s[0] != '<' ==> r.None?
  {
    if |s| >= 2 && s[0] == '<' && s[1] == '.' then
      var w := WordLen(s[2..]);
      if 2 + w < |s| && s[2 + w] == '>' then
        assert s[..w + 3] == "<." + s[2..2 + w] + ">";
        Some(s[2..2 + w])
      else None
    else None
  }

  /**
   * The keys of the matches found scanning left to right, each search
   * resuming after the previous match, as FindAllStringSubmatch does.
   */
  function Keys(s: string): seq<string>
    decreases |s|
  {
    if |s| == 0 then []
    else match MatchAtFront(s)
      case Some(w) => [w] + Keys(s[|w| + 3..])
      case None => Keys(s[1..])
  }

  /** The keys of the matches at every position, whether or not they overlap. */
  function AllMatches(s: string): seq<string>
  {
    if |s| == 0 then []
    else (match MatchAtFront(s) case Some(w) => [w] case None => []) + AllMatches(s[1..])
  }

  /** Positions without a '<' start no match. */
  lemma {:induction false} AllMatchesSkip(s: string, n: nat)
    requires n <= |s|
    requires forall j :: 0 <= j < n ==> s[j] != '<'
    ensures AllMatches(s) == AllMatches(s[n..])
    decreases n
  {
    if n > 0 {
      assert MatchAtFront(s).None?;
      AllMatchesSkip(s[1..], n - 1);
      assert s[1..][n - 1..] == s[n..];
    }
  }

  /**
   * Matches never overlap, so the left-to-right scan finds the match at
   * every position: the keys are those of all matches, in order.
   */
  lemma {:induction false} KeysAreAllMatches(s: string)
    ensures Keys(s) == AllMatches(s)
    decreases |s|
  {
    if |s| > 0 {
      match MatchAtFront(s)
      case Some(w) =>
        KeysAreAllMatches(s[|w| + 3..]);
        MatchCoversNoStart(s, w);
      case None =>
        KeysAreAllMatches(s[1..]);
    }
  }

  /** No match starts inside a match: after its first character, the next one starts past its end. */
  lemma MatchCoversNoStart(s: string, w: string)
    requires MatchAtFront(s) == Some(w)
    ensures AllMatches(s[1..]) == AllMatches(s[|w| + 3..])
  {
    var t := s[1..];
    forall j | 0 <= j < |w| + 2 ensures t[j] != '<' {
      assert s[..|w| + 3][j + 1] == t[j];
      if j >= 1 && j - 1 < |w| {
        assert t[j] == w[j - 1];
      }
    }
    AllMatchesSkip(t, |w| + 2);
    assert t[|w| + 2..] == s[|w| + 3..];
  }

  /** Every key is a run of word characters; the empty key is allowed. */
  lemma {:induction false} KeysAreWords(s: string)
    ensures forall k :: 0 <= k < |Keys(s)| ==> forall i :: 0 <= i < |Keys(s)[k]| ==> IsWordChar(Keys(s)[k][i])
    decreases |s|
  {
    if |s| > 0 {
      match MatchAtFront(s)
      case Some(w) => KeysAreWords(s[|w| + 3..]);
      case None => KeysAreWords(s[1..]);
    }
  }

  /** A message without '<' names no key. */
  lemma NoAngleNoKeys(s: string)
    requires '<' !in s
    ensures Keys(s) == []
  {
    KeysAreAllMatches(s);
    AllMatchesSkip(s, |s|);
    assert s[|s|..] == "";
  }

  /** fmt's %v of a list of strings: the elements separated by spaces, in brackets. */
  function ListText(keys: seq<string>): string
  {
    "[" + Spaced(keys) + "]"
  }

  function Spaced(keys: seq<string>): string
  {
    if |keys| == 0 then ""
    else if |keys| == 1 then keys[0]
    else keys[0] + " " + Spaced(keys[1..])
  }

  const ErrPrefix := "template validate err: "
  const MissingKeys := "missing keys "

  /**
   * ImproveTemplateExecuteErrReadability: the missing keys listed when the
   * message names any, the message wrapped otherwise.
   */
  function ImproveErr(msg: string): (r: string)
    ensures |r| >= |ErrPrefix| && r[..|ErrPrefix|] == ErrPrefix
    ensures Keys(msg) == [] ==> r[|ErrPrefix|..] == msg
    ensures Keys(msg) != [] ==> r[|ErrPrefix|..] == MissingKeys + ListText(Keys(msg))
  {
    var keys := Keys(msg);
    if |keys| > 0 then ErrPrefix + MissingKeys + ListText(keys) else ErrPrefix + msg
  }

  /** "<.>" names the empty key, and a repeated key is listed each time. */
  lemma EmptyAndRepeatedKeys()
    ensures Keys("<.>") == [""]
    ensures Keys("<.a><.a>") == ["a", "a"]
  {
    assert WordLen(">") == 0;
    assert "<.>"[2..] == ">";
    assert MatchAtFront("<.>") == Some("");
    assert "<.>"[3..] == "";
    assert WordLen("a><.a>") == 1 by {
      assert "a><.a>"[1..] == "><.a>";
    }
    assert "<.a><.a>"[2..] == "a><.a>";
    assert "<.a><.a>"[3] == '>' && "<.a><.a>"[2..3] == "a";
    assert MatchAtFront("<.a><.a>") == Some("a");
    assert "<.a><.a>"[4..] == "<.a>";
    assert WordLen("a>") == 1 by {
      assert "a>"[1..] == ">";
    }
    assert "<.a>"[2..] == "a>";
    assert "<.a>"[3] == '>' && "<.a>"[2..3] == "a";
    assert MatchAtFront("<.a>") == Some("a");
    assert "<.a>"[4..] == "";
  }
}
