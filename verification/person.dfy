/**
  `Person`: a personal identity number (CPR number) and a first and last
  name. `full_name` joins the names with a space; `cpr_date_str` (called
  `date_str` in the inheritance example) extracts the eight leading digits of
  a number of the exact shape `\A\d{8}-\d{6}\z`, or gives `nil`.

  The regular expression is modelled as a sequence of single-character
  tokens matched against the whole string (the `\A` and `\z` anchors);
  `IsCprShape` states the same shape directly, and `CprDateStrIff` proves
  that the two agree.
*/
module Person {
  import opened Wrappers

  /** `Person.new`: the constructor stores its three arguments unchanged. */
  datatype Person = Person(personalIdentityNumber: string, firstname: string, lastname: string)

  /** `Person#full_name`: `"#{firstname} #{lastname}"`. */
  function FullName(p: Person): (name: string)
    ensures |name| == |p.firstname| + 1 + |p.lastname|
    ensures name[..|p.firstname|] == p.firstname
    ensures name[|p.firstname|] == ' '
    ensures name[|p.firstname| + 1..] == p.lastname
  {
    p.firstname + " " + p.lastname
  }

  /**
    Splits a string at its first space: the part before it and the part
    after it; a string without a space is all first part.
  */
  function SplitAtFirstSpace(s: string): (parts: (string, string))
    ensures ' ' !in parts.0
    ensures ' ' in s ==> s == parts.0 + " " + parts.1
    ensures ' ' !in s ==> parts == (s, "")
  {
    if s == [] then ("", "")
    else if s[0] == ' ' then ("", s[1..])
    else
      var rest := SplitAtFirstSpace(s[1..]);
      assert s == [s[0]] + s[1..];
      ([s[0]] + rest.0, rest.1)
  }

  lemma {:induction false} SplitAfterWord(word: string, rest: string)
    requires ' ' !in word
    ensures SplitAtFirstSpace(word + " " + rest) == (word, rest)
  {
    if word != [] {
      var s := word + " " + rest;
      assert s[0] == word[0] && s[1..] == word[1..] + " " + rest;
      SplitAfterWord(word[1..], rest);
      assert word == [word[0]] + word[1..];
    } else {
      assert word + " " + rest == [' '] + rest;
    }
  }

  /**
    The full name can be split back into the first and last name exactly
    when the first name has no space in it.
  */
  lemma FullNameSplitIff(p: Person)
    ensures SplitAtFirstSpace(FullName(p)) == (p.firstname, p.lastname) <==> ' ' !in p.firstname
  {
    if ' ' !in p.firstname {
      SplitAfterWord(p.firstname, p.lastname);
    }
  }

  /** An ASCII digit: Ruby's `\d`, which matches no other character. */
  predicate IsDigit(c: char) {
    '0' <= c <= '9'
  }

  /** One position of a fixed-width regular expression. */
  datatype Token = Digit | Literal(c: char)

  predicate TokenMatches(t: Token, c: char) {
    match t
    case Digit => IsDigit(c)
    case Literal(l) => c == l
  }

  /** `t{n}`: the token repeated `n` times. */
  function Repeat(t: Token, n: nat): (r: seq<Token>)
    ensures |r| == n
    ensures forall i :: 0 <= i < n ==> r[i] == t
  {
    if n == 0 then [] else [t] + Repeat(t, n - 1)
  }

  /** `\d{8}-\d{6}`; the first eight positions form the named group `date`. */
  function DatePattern(): seq<Token> {
    Repeat(Digit, 8) + [Literal('-')] + Repeat(Digit, 6)
  }

  /** The pattern, anchored with `\A` and `\z`, matches all of `s`. */
  predicate MatchesWhole(pattern: seq<Token>, s: string)
    decreases |pattern|
  {
    if pattern == [] then s == []
    else s != [] && TokenMatches(pattern[0], s[0]) && MatchesWhole(pattern[1..], s[1..])
  }

  lemma {:induction false} MatchesWholeIff(pattern: seq<Token>, s: string)
    ensures MatchesWhole(pattern, s)
        <==> |pattern| == |s| && forall i :: 0 <= i < |s| ==> TokenMatches(pattern[i], s[i])
    decreases |pattern|
  {
    if pattern != [] && s != [] {
      MatchesWholeIff(pattern[1..], s[1..]);
      if |pattern| == |s| && forall i :: 0 <= i < |s| ==> TokenMatches(pattern[i], s[i]) {
        assert forall i :: 0 <= i < |s| - 1 ==> TokenMatches(pattern[1..][i], s[1..][i]) by {
          forall i | 0 <= i < |s| - 1
            ensures TokenMatches(pattern[1..][i], s[1..][i])
          {
            assert TokenMatches(pattern[i + 1], s[i + 1]);
          }
        }
      }
    }
  }

  /** The shape `\A\d{8}-\d{6}\z`, stated directly. */
  predicate IsCprShape(s: string) {
    && |s| == 15
    && (forall i :: 0 <= i < 8 ==> IsDigit(s[i]))
    && s[8] == '-'
    && (forall i :: 9 <= i < 15 ==> IsDigit(s[i]))
  }

  lemma DatePatternMatchesIff(s: string)
    ensures MatchesWhole(DatePattern(), s) <==> IsCprShape(s)
  {
    var p := DatePattern();
    assert |p| == 15;
    assert forall i :: 0 <= i < 8 ==> p[i] == Digit;
    assert p[8] == Literal('-');
    assert forall i :: 9 <= i < 15 ==> p[i] == Digit;
    MatchesWholeIff(p, s);
  }

  /**
    `Person#cpr_date_str` (and `date_str`): the `date` group of the match,
    that is the eight leading digits, or `None` (Ruby's `nil`) when the
    number does not match.
  */
  function CprDateStr(number: string): (date: Option<string>)
    ensures date.Some? ==> |number| == 15 && |date.value| == 8 && date.value == number[..8]
    ensures date.Some? ==> forall i :: 0 <= i < 8 ==> IsDigit(date.value[i])
  {
    DatePatternMatchesIff(number);
    if MatchesWhole(DatePattern(), number) then Some(number[..8]) else None
  }

  /** A date is extracted exactly from the numbers of the shape, and it is their first eight characters. */
  lemma CprDateStrIff(number: string)
    ensures CprDateStr(number).Some? <==> IsCprShape(number)
    ensures IsCprShape(number) ==> CprDateStr(number) == Some(number[..8])
  {
    DatePatternMatchesIff(number);
  }

  /** `\z` admits no trailing newline (unlike `$` or `\Z`). */
  lemma TrailingNewlineRejected(number: string)
    ensures CprDateStr(number + "\n") == None
  {
    CprDateStrIff(number + "\n");
    var s := number + "\n";
    assert s[|s| - 1] == '\n';
  }

  /** The number in the demonstration, "811228-9874", has six digits before the hyphen, so no date. */
  lemma DemoNumberRejected()
    ensures CprDateStr("811228-9874") == None
  {
    CprDateStrIff("811228-9874");
  }

  lemma WellFormedNumberAccepted()
    ensures CprDateStr("28121981-123456") == Some("28121981")
  {
    var s := "28121981-123456";
    assert IsCprShape(s);
    CprDateStrIff(s);
    assert s[..8] == "28121981";
  }
}
