/**
 * The string helpers of mandelbrot.js: the case mappings the registry
 * lookups and the drop-down labels use, and toInitialCaps, which splits a
 * name on single spaces, upper-cases the first character of each word and
 * joins the words again with single spaces. Its separator is added only once
 * the result is non-empty, so the empty words that leading spaces produce
 * add nothing, and leading spaces are dropped.
 */
module Names {

  /** String.prototype.toUpperCase on one character, for ASCII letters. */
  function Upper(ch: char): char {
    if 'a' <= ch <= 'z' then (ch as int - 'a' as int + 'A' as int) as char else ch
  }

  /** String.prototype.toLowerCase on one character, for ASCII letters. */
  function Lower(ch: char): char {
    if 'A' <= ch <= 'Z' then (ch as int - 'A' as int + 'a' as int) as char else ch
  }

  /** String.prototype.toLowerCase, for ASCII letters. */
  function ToLowerCase(s: string): (t: string)
    ensures |t| == |s|
    ensures forall k :: 0 <= k < |s| ==> t[k] == Lower(s[k])
  {
    seq(|s|, k requires 0 <= k < |s| => Lower(s[k]))
  }

  /** Lower-casing is idempotent, and a string without upper-case ASCII letters is its own lower-case form. */
  lemma ToLowerCaseIdempotent(s: string)
    ensures ToLowerCase(ToLowerCase(s)) == ToLowerCase(s)
    ensures (forall k :: 0 <= k < |s| ==> !('A' <= s[k] <= 'Z')) ==> ToLowerCase(s) == s
  {
  }

  /** str.split(' '): the pieces between single spaces, empty pieces included. */
  function Split(s: string): (words: seq<string>)
    ensures |words| >= 1
    ensures forall w :: w in words ==> ' ' !in w
    decreases |s|
  {
    if ' ' !in s then [s]
    else
      var i := FirstSpace(s);
      [s[..i]] + Split(s[i + 1..])
  }

  function FirstSpace(s: string): (i: nat)
    requires ' ' in s
    ensures i < |s| && s[i] == ' ' && ' ' !in s[..i]
  {
    if s[0] == ' ' then 0 else 1 + FirstSpace(s[1..])
  }

  /** The words joined with single spaces: the inverse of Split. */
  function Join(words: seq<string>): string
    requires |words| >= 1
  {
    if |words| == 1 then words[0] else words[0] + " " + Join(words[1..])
  }

  lemma {:induction false} JoinAppend(words: seq<string>, w: string)
    requires |words| >= 1
    ensures Join(words + [w]) == Join(words) + " " + w
  {
    if |words| == 1 {
      assert (words + [w])[1..] == [w];
    } else {
      assert (words + [w])[1..] == words[1..] + [w];
      JoinAppend(words[1..], w);
    }
  }

  /** Joining the pieces of a split gives back the string. */
  lemma {:induction false} JoinSplit(s: string)
    ensures Join(Split(s)) == s
    decreases |s|
  {
    if ' ' in s {
      var i := FirstSpace(s);
      JoinSplit(s[i + 1..]);
      assert s == s[..i] + " " + s[i + 1..];
    }
  }

  /** The string without its leading spaces. */
  function DropLeadingSpaces(s: string): (t: string)
    ensures |t| == 0 || t[0] != ' '
    ensures |t| <= |s|
  {
    if |s| > 0 && s[0] == ' ' then DropLeadingSpaces(s[1..]) else s
  }

  /** What DropLeadingSpaces removes is a run of spaces, and what it keeps is the rest of s. */
  lemma {:induction false} DropLeadingSpacesSuffix(s: string)
    ensures var t := DropLeadingSpaces(s);
      && t == s[|s| - |t|..]
      && forall k :: 0 <= k < |s| - |t| ==> s[k] == ' '
    decreases |s|
  {
    if |s| > 0 && s[0] == ' ' {
      DropLeadingSpacesSuffix(s[1..]);
    }
  }

  /** t with its first character and every character after a space upper-cased. */
  function Caps(t: string): (u: string)
    ensures |u| == |t|
  {
    seq(|t|, k requires 0 <= k < |t| => if k == 0 || t[k - 1] == ' ' then Upper(t[k]) else t[k])
  }

  /** word.charAt(0).toUpperCase() + word.substring(1). */
  function CapWord(w: string): string {
    if |w| == 0 then "" else [Upper(w[0])] + w[1..]
  }

  lemma CapsOfWord(w: string)
    requires ' ' !in w
    ensures Caps(w) == CapWord(w)
  {
  }

  lemma CapsAppendWord(t: string, w: string)
    requires ' ' !in w
    ensures Caps(t + " " + w) == Caps(t) + " " + CapWord(w)
  {
    var lhs := Caps(t + " " + w);
    var rhs := Caps(t) + " " + CapWord(w);
    assert |lhs| == |rhs|;
    forall k | 0 <= k < |lhs| ensures lhs[k] == rhs[k] {
      if k < |t| {
      } else if k == |t| {
      } else if k == |t| + 1 {
      } else {
        assert (t + " " + w)[k - 1] == w[k - |t| - 2];
      }
    }
  }

  /** Dropping leading spaces of a longer string, once something other than a space has been seen. */
  lemma DropLeadingAppend(t: string, w: string)
    requires DropLeadingSpaces(t) != ""
    ensures DropLeadingSpaces(t + " " + w) == DropLeadingSpaces(t) + " " + w
    decreases |t|
  {
    if |t| > 0 && t[0] == ' ' {
      assert (t + " " + w)[1..] == t[1..] + " " + w;
      DropLeadingAppend(t[1..], w);
    }
  }

  lemma DropLeadingOfSpaces(t: string, w: string)
    requires DropLeadingSpaces(t) == "" && (|w| == 0 || w[0] != ' ')
    ensures DropLeadingSpaces(t + " " + w) == w
    decreases |t|
  {
    if |t| > 0 {
      assert (t + " " + w)[1..] == t[1..] + " " + w;
      DropLeadingOfSpaces(t[1..], w);
    } else {
      assert (t + " " + w)[1..] == w;
    }
  }

  /** Appending one more word to the words seen so far, as the loop body does. */
  lemma CapsStep(done: string, word: string)
    requires ' ' !in word
    ensures var sofar := Caps(DropLeadingSpaces(done));
      Caps(DropLeadingSpaces(done + " " + word)) == (if sofar != "" then sofar + " " else "") + CapWord(word)
  {
    if DropLeadingSpaces(done) != "" {
      DropLeadingAppend(done, word);
      CapsAppendWord(DropLeadingSpaces(done), word);
    } else {
      DropLeadingOfSpaces(done, word);
      CapsOfWord(word);
    }
  }

  /** What the loop has built after its first i words. */
  function Built(words: seq<string>, i: nat): string
    requires 0 < i <= |words|
  {
    Caps(DropLeadingSpaces(Join(words[..i])))
  }

  lemma BuiltFirst(words: seq<string>)
    requires |words| >= 1 && ' ' !in words[0]
    ensures Built(words, 1) == CapWord(words[0])
  {
    assert words[..1] == [words[0]];
    CapsOfWord(words[0]);
  }

  lemma BuiltNext(words: seq<string>, i: nat)
    requires 0 < i < |words| && ' ' !in words[i]
    ensures Built(words, i + 1) == (if Built(words, i) != "" then Built(words, i) + " " else "") + CapWord(words[i])
  {
    JoinAppend(words[..i], words[i]);
    assert words[..i + 1] == words[..i] + [words[i]];
    CapsStep(Join(words[..i]), words[i]);
  }

  lemma BuiltAll(words: seq<string>, str: string)
    requires words == Split(str)
    ensures Built(words, |words|) == Caps(DropLeadingSpaces(str))
  {
    assert words[..|words|] == words;
    JoinSplit(str);
  }

  /**
   * The loop over the words of str: the result is str without its leading
   * spaces, with the first character and each character after a space
   * upper-cased.
   */
  method ToInitialCaps(str: string) returns (ret: string)
    ensures ret == Caps(DropLeadingSpaces(str))
  {
    var words := Split(str);
    ret := "";
    var i := 0;
    while i < |words|
      invariant 0 <= i <= |words|
      invariant i == 0 ==> ret == ""
      invariant i > 0 ==> ret == Built(words, i)
    {
      var word := words[i];
      assert word in words;
      if i > 0 {
        BuiltNext(words, i);
      } else {
        BuiltFirst(words);
      }
      if ret != "" {
        ret := ret + " ";
      }
      ret := ret + CapWord(word);
      i := i + 1;
    }
    assert i == |words| && |words| > 0;
    assert ret == Built(words, |words|);
    BuiltAll(words, str);
  }

  /**
   * On a string that does not start with a space the result has the same
   * length and differs from it only by upper-casing position 0 and each
   * position after a space.
   */
  lemma InitialCapsShape(str: string)
    requires |str| == 0 || str[0] != ' '
    ensures |Caps(DropLeadingSpaces(str))| == |str|
    ensures forall k :: 0 <= k < |str| ==>
      Caps(DropLeadingSpaces(str))[k] == (if k == 0 || str[k - 1] == ' ' then Upper(str[k]) else str[k])
  {
    assert DropLeadingSpaces(str) == str;
  }
}
