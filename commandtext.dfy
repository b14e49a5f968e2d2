/**
 * Python's `str.split(maxsplit=1)` with no separator, which the handlers use
 * to cut the command word off a message: leading whitespace is skipped, the
 * first run of non-whitespace is the first part, the whitespace after it is
 * dropped and everything that remains, trailing whitespace included, is the
 * second part.
 */
module CommandText {

  /** `str.isspace()` for one character: the characters `split()` treats as separators. */
  predicate IsSpace(c: char)
    ensures c == ' ' || c == '\t' || c == '\n' ==> IsSpace(c)
    ensures '!' <= c <= '~' ==> !IsSpace(c)
  {
    || '\t' <= c <= '\r'
    || '\U{1C}' <= c <= ' '
    || c == '\U{85}' || c == '\U{A0}' || c == '\U{1680}'
    || '\U{2000}' <= c <= '\U{200A}'
    || c == '\U{2028}' || c == '\U{2029}' || c == '\U{202F}' || c == '\U{205F}' || c == '\U{3000}'
  }

  /** The end of the whitespace run of `s` that starts at `from`. */
  function SkipSpaces(s: string, from: nat): (n: nat)
    requires from <= |s|
    ensures from <= n <= |s|
    ensures forall p :: from <= p < n ==> IsSpace(s[p])
    ensures n < |s| ==> !IsSpace(s[n])
    decreases |s| - from
  {
    if from < |s| && IsSpace(s[from]) then SkipSpaces(s, from + 1) else from
  }

  /** The end of the word of `s` that starts at `from`. */
  function SkipWord(s: string, from: nat): (n: nat)
    requires from <= |s|
    ensures from <= n <= |s|
    ensures forall p :: from <= p < n ==> !IsSpace(s[p])
    ensures n < |s| ==> IsSpace(s[n])
    decreases |s| - from
  {
    if from < |s| && !IsSpace(s[from]) then SkipWord(s, from + 1) else from
  }

  /** `text.split(maxsplit=1)`. */
  function SplitOnce(text: string): (parts: seq<string>)
    ensures |parts| <= 2
    ensures forall m :: 0 <= m < |parts| ==> parts[m] != []
    ensures |parts| >= 1 ==> forall p :: 0 <= p < |parts[0]| ==> !IsSpace(parts[0][p])
    ensures |parts| == 2 ==> !IsSpace(parts[1][0]) && |parts[1]| < |text| && parts[1] == text[|text| - |parts[1]|..]
  {
    var i := SkipSpaces(text, 0);
    if i == |text| then []
    else
      var j := SkipWord(text, i);
      var k := SkipSpaces(text, j);
      if k == |text| then [text[i..j]] else [text[i..j], text[k..]]
  }

  /**
   * Reading a message back: a message made of optional whitespace (before
   * `i`), the command word (`i` to `j`), at least one whitespace character
   * (`j` to `k`) and an argument starting with a non-whitespace character at
   * `k` splits into exactly the command word and the whole argument, inner
   * and trailing whitespace kept.
   */
  lemma SplitOnceOfCommand(text: string, i: nat, j: nat, k: nat)
    requires i < j < k < |text|
    requires forall p :: 0 <= p < i ==> IsSpace(text[p])
    requires forall p :: i <= p < j ==> !IsSpace(text[p])
    requires forall p :: j <= p < k ==> IsSpace(text[p])
    requires !IsSpace(text[k])
    ensures SplitOnce(text) == [text[i..j], text[k..]]
  {
    SkipSpacesTo(text, 0, i);
    SkipWordTo(text, i, j);
    SkipSpacesTo(text, j, k);
  }

  /** The whitespace run starting at `from` ends at the first non-whitespace character. */
  lemma SkipSpacesTo(s: string, from: nat, n: nat)
    requires from <= n <= |s|
    requires forall p :: from <= p < n ==> IsSpace(s[p])
    requires n < |s| ==> !IsSpace(s[n])
    ensures SkipSpaces(s, from) == n
  {
  }

  /** The word starting at `from` ends at the first whitespace character. */
  lemma SkipWordTo(s: string, from: nat, n: nat)
    requires from <= n <= |s|
    requires forall p :: from <= p < n ==> !IsSpace(s[p])
    requires n < |s| ==> IsSpace(s[n])
    ensures SkipWord(s, from) == n
  {
  }

  /**
   * A message has an argument exactly when it holds two words: some
   * non-whitespace character, later a whitespace character, later again a
   * non-whitespace character.
   */
  lemma SplitOnceHasArgumentIff(text: string)
    ensures |SplitOnce(text)| == 2 <==>
            exists a, b, c :: 0 <= a < b < c < |text| && !IsSpace(text[a]) && IsSpace(text[b]) && !IsSpace(text[c])
  {
    var i := SkipSpaces(text, 0);
    if i < |text| {
      var j := SkipWord(text, i);
      if j < |text| {
        var k := SkipSpaces(text, j);
        if k < |text| {
          assert !IsSpace(text[i]) && IsSpace(text[j]) && !IsSpace(text[k]);
        } else {
          forall a, b, c | 0 <= a < b < c < |text| && !IsSpace(text[a]) && IsSpace(text[b])
            ensures IsSpace(text[c])
          {
            assert i <= a;
            assert j <= b;
          }
        }
      } else {
        forall a, b | 0 <= a < b < |text| && !IsSpace(text[a])
          ensures !IsSpace(text[b])
        {
          assert i <= a;
        }
      }
    }
  }

  /** A command word, one space and an argument split back into the word and the whole argument. */
  lemma SplitOnceOfWords(command: string, argument: string)
    requires command != [] && forall p :: 0 <= p < |command| ==> !IsSpace(command[p])
    requires argument != [] && !IsSpace(argument[0])
    ensures SplitOnce(command + " " + argument) == [command, argument]
  {
    var text := command + " " + argument;
    var j := |command|;
    assert forall p :: 0 <= p < j ==> text[p] == command[p];
    assert text[j] == ' ' && text[j + 1] == argument[0];
    SplitOnceOfCommand(text, 0, j, j + 1);
    assert text[0..j] == command;
    assert text[j + 1..] == argument;
  }

  /** A multi-word city name stays whole. */
  lemma SplitOnceKeepsCityWhole()
    ensures SplitOnce("/show_city New York") == ["/show_city", "New York"]
  {
    SplitOnceOfWords("/show_city", "New York");
    assert "/show_city" + " " + "New York" == "/show_city New York";
  }

  /** Trailing whitespace stays part of the argument, so `"Moscow "` is not `"Moscow"`. */
  lemma SplitOnceKeepsTrailingSpace()
    ensures SplitOnce("/remember_city Moscow ") == ["/remember_city", "Moscow "]
  {
    SplitOnceOfWords("/remember_city", "Moscow ");
    assert "/remember_city" + " " + "Moscow " == "/remember_city Moscow ";
  }
}
