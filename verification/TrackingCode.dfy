/** Tracking codes: how one is generated, and what an operator may type for it. Plain
    ASCII input only; pasted tracking URLs are not part of this model. */
module TrackingCode {
  import opened Wrappers

  const ALPHABET := "0123456789ABCDEFGHJKMNPQRSTVWXYZ"
  const PREFIX := "LCM"
  const CODE_LENGTH := 8

  predicate InAlphabet(body: string) {
    forall i :: 0 <= i < |body| ==> body[i] in ALPHABET
  }

  /** A code written out with some prefix, in two halves. */
  function WithPrefix(prefix: string, body: string): string
    requires |body| == CODE_LENGTH
  {
    prefix + "-" + body[..4] + "-" + body[4..]
  }

  function Canonical(body: string): string
    requires |body| == CODE_LENGTH
  {
    WithPrefix(PREFIX, body)
  }

  /** Builds a code from eight random picks. */
  method GenerateTrackingCode(picks: seq<nat>) returns (code: string)
    requires |picks| == CODE_LENGTH && forall i :: 0 <= i < |picks| ==> picks[i] < |ALPHABET|
    ensures exists body :: |body| == CODE_LENGTH && InAlphabet(body) && code == Canonical(body)
                           && forall i :: 0 <= i < CODE_LENGTH ==> body[i] == ALPHABET[picks[i]]
    ensures |code| == 13 && code[..4] == "LCM-" && code[8] == '-'
    ensures forall i :: 0 <= i < 8 ==> code[if i < 4 then 4 + i else 5 + i] == ALPHABET[picks[i]]
  {
    var body := "";
    for i := 0 to CODE_LENGTH
      invariant |body| == i
      invariant forall k :: 0 <= k < i ==> body[k] == ALPHABET[picks[k]]
    {
      body := body + [ALPHABET[picks[i]]];
    }
    code := Canonical(body);
  }

  predicate IsSpace(c: char) {
    c in " \t\n\r\U{b}\U{c}"
  }

  predicate IsSeparator(c: char) {
    IsSpace(c) || c in "-_."
  }

  function Upper(c: char): char {
    if 'a' <= c <= 'z' then c - 'a' + 'A' else c
  }

  function TrimStart(input: string): string {
    if input != [] && IsSpace(input[0]) then TrimStart(input[1..]) else input
  }

  function TrimEnd(input: string): string {
    if input != [] && IsSpace(input[|input| - 1]) then TrimEnd(input[..|input| - 1]) else input
  }

  function Trim(input: string): string {
    TrimEnd(TrimStart(input))
  }

  /** Upper-cased, with spaces, dashes, underscores and dots left out. */
  function Squash(input: string): string {
    if input == [] then []
    else (if IsSeparator(Upper(input[0])) then [] else [Upper(input[0])]) + Squash(input[1..])
  }

  /** The digit that a look-alike is read as. */
  function Digit(c: char): char {
    if c == 'O' then '0' else if c == 'I' || c == 'L' then '1' else c
  }

  function Digits(value: string): (digits: string)
    ensures |digits| == |value|
    ensures forall i :: 0 <= i < |value| ==> digits[i] == Digit(value[i])
  {
    if value == [] then [] else [Digit(value[0])] + Digits(value[1..])
  }

  predicate HasPrefix(value: string) {
    |value| == |PREFIX| + CODE_LENGTH && value[..|PREFIX|] == PREFIX
  }

  function WithoutPrefix(value: string): string {
    if HasPrefix(value) then value[|PREFIX|..] else value
  }

  /** What the code in upper case without separators stands for, if for anything. */
  function Read(value: string): Option<string> {
    var body := Digits(WithoutPrefix(value));
    if |body| != CODE_LENGTH || !InAlphabet(body) then None else Some(Canonical(body))
  }

  function NormalizeTrackingCode(input: string): Option<string> {
    Read(Squash(Trim(input)))
  }

  // ----- Squashing ---------------------------------------------------------

  lemma {:induction false} SquashConcat(a: string, b: string)
    ensures Squash(a + b) == Squash(a) + Squash(b)
  {
    if a == [] {
      assert a + b == b;
    } else {
      assert (a + b)[1..] == a[1..] + b;
      SquashConcat(a[1..], b);
    }
  }

  lemma {:induction false} TrimStartSquashed(input: string)
    ensures Squash(TrimStart(input)) == Squash(input)
  {
    if input != [] && IsSpace(input[0]) {
      TrimStartSquashed(input[1..]);
    }
  }

  lemma {:induction false} TrimEndSquashed(input: string)
    ensures Squash(TrimEnd(input)) == Squash(input)
    decreases |input|
  {
    if input != [] && IsSpace(input[|input| - 1]) {
      var front, last := input[..|input| - 1], input[|input| - 1];
      TrimEndSquashed(front);
      SquashConcat(front, [last]);
      assert input == front + [last];
      assert Squash([last]) == [];
    }
  }

  /** Trimming makes no difference to the separators left out anyway. */
  lemma TrimSquashed(input: string)
    ensures Squash(Trim(input)) == Squash(input)
  {
    TrimStartSquashed(input);
    TrimEndSquashed(TrimStart(input));
  }

  /** Upper-case characters that are no separators are kept as they are. */
  predicate Plain(value: string) {
    forall i :: 0 <= i < |value| ==> !IsSeparator(value[i]) && Upper(value[i]) == value[i]
  }

  lemma {:induction false} PlainStays(value: string)
    requires Plain(value)
    ensures Squash(value) == value
  {
    if value != [] {
      PlainStays(value[1..]);
    }
  }

  lemma AlphabetChar(c: char)
    requires c in ALPHABET
    ensures '0' <= c <= '9' || 'A' <= c <= 'Z'
    ensures c != 'O' && c != 'I' && c != 'L'
  {
  }

  /** Thirty-two digits and letters, rising, and none of I, L, O and U: so all the others. */
  lemma AlphabetMeans()
    ensures |ALPHABET| == 32
    ensures forall i :: 0 <= i < 31 ==> ALPHABET[i] < ALPHABET[i + 1]
    ensures forall i :: 0 <= i < 32 ==>
              ('0' <= ALPHABET[i] <= '9' || 'A' <= ALPHABET[i] <= 'Z') && ALPHABET[i] !in "ILOU"
  {
  }

  lemma AlphabetIsPlain(body: string)
    requires InAlphabet(body)
    ensures Plain(body) && Digits(body) == body
  {
    forall i | 0 <= i < |body|
      ensures !IsSeparator(body[i]) && Upper(body[i]) == body[i] && Digit(body[i]) == body[i]
    {
      AlphabetChar(body[i]);
    }
  }

  lemma SquashPieces(a: string, b: string, c: string, d: string, e: string)
    ensures Squash(a + b + c + d + e) == Squash(a) + Squash(b) + Squash(c) + Squash(d) + Squash(e)
  {
    hide Squash;
    SquashConcat(a, b);
    SquashConcat(a + b, c);
    SquashConcat(a + b + c, d);
    SquashConcat(a + b + c + d, e);
  }

  lemma HalvesStay(body: string)
    requires |body| == CODE_LENGTH && InAlphabet(body)
    ensures Squash(body[..4]) == body[..4] && Squash(body[4..]) == body[4..] && Squash("-") == []
  {
    AlphabetIsPlain(body);
    PlainStays(body[..4]);
    PlainStays(body[4..]);
  }

  lemma Joined(prefix: string, body: string)
    requires |body| == CODE_LENGTH
    ensures prefix + [] + body[..4] + [] + body[4..] == prefix + body
  {
    assert body == body[..4] + body[4..];
  }

  lemma SquashWritten(prefix: string, body: string)
    requires |body| == CODE_LENGTH && InAlphabet(body) && Plain(prefix)
    ensures Squash(WithPrefix(prefix, body)) == prefix + body
  {
    hide Squash, Plain, InAlphabet;
    PlainStays(prefix);
    HalvesStay(body);
    SquashPieces(prefix, "-", body[..4], "-", body[4..]);
    Joined(prefix, body);
  }

  // ----- What may be typed -------------------------------------------------

  /** Every generated code is read as itself. */
  lemma GeneratedIsFixed(body: string)
    requires |body| == CODE_LENGTH && InAlphabet(body)
    ensures NormalizeTrackingCode(Canonical(body)) == Some(Canonical(body))
  {
    AlphabetIsPlain(body);
    TrimSquashed(Canonical(body));
    SquashWritten(PREFIX, body);
    hide Squash, InAlphabet, Trim;
    assert (PREFIX + body)[..|PREFIX|] == PREFIX && (PREFIX + body)[|PREFIX|..] == body;
  }

  /** Whatever is typed, the answer is a well-formed code or nothing, and asking again
      with the answer changes nothing. */
  lemma NormalizeIsIdempotent(input: string)
    requires NormalizeTrackingCode(input).Some?
    ensures exists body ::
              |body| == CODE_LENGTH && InAlphabet(body) && NormalizeTrackingCode(input) == Some(Canonical(body))
    ensures NormalizeTrackingCode(NormalizeTrackingCode(input).value) == NormalizeTrackingCode(input)
  {
    var body := Digits(WithoutPrefix(Squash(Trim(input))));
    GeneratedIsFixed(body);
  }

  /** Separators may be put in or left out anywhere. */
  lemma SeparatorsDoNotMatter(a: string, separators: string, b: string)
    requires forall i :: 0 <= i < |separators| ==> IsSeparator(separators[i])
    ensures NormalizeTrackingCode(a + separators + b) == NormalizeTrackingCode(a + b)
  {
    SeparatorsVanish(separators);
    hide Squash, Trim, Read, IsSeparator;
    TrimSquashed(a + separators + b);
    TrimSquashed(a + b);
    SquashConcat(a + separators, b);
    SquashConcat(a, separators);
    SquashConcat(a, b);
    assert Squash(a) + [] == Squash(a);
  }

  lemma {:induction false} SeparatorsVanish(separators: string)
    requires forall i :: 0 <= i < |separators| ==> IsSeparator(separators[i])
    ensures Squash(separators) == []
  {
    if separators != [] {
      assert IsSeparator(separators[0]) && Upper(separators[0]) == separators[0];
      SeparatorsVanish(separators[1..]);
    }
  }

  predicate SameButCase(a: string, b: string) {
    |a| == |b| && forall i :: 0 <= i < |a| ==> Upper(a[i]) == Upper(b[i])
  }

  lemma {:induction false} SameSquash(a: string, b: string)
    requires SameButCase(a, b)
    ensures Squash(a) == Squash(b)
  {
    if a != [] {
      SameSquash(a[1..], b[1..]);
    }
  }

  /** Nor does case matter. */
  lemma CaseDoesNotMatter(a: string, b: string)
    requires SameButCase(a, b)
    ensures NormalizeTrackingCode(a) == NormalizeTrackingCode(b)
  {
    TrimSquashed(a);
    TrimSquashed(b);
    SameSquash(a, b);
  }

  /** Typed the same but for look-alikes: O for 0, I or L for 1. */
  predicate Alike(a: string, b: string) {
    Digits(Squash(a)) == Digits(Squash(b))
  }

  /** What is typed holds a code, with or without the prefix. */
  predicate HoldsCode(input: string) {
    var body := Digits(WithoutPrefix(Squash(input)));
    |body| == CODE_LENGTH && InAlphabet(body)
  }

  /** Look-alikes do not matter either, except in the prefix: two inputs that look alike
      are read the same exactly when both have the prefix, or neither has, or neither
      holds a code. */
  lemma LookAlikesExactlyWhen(a: string, b: string)
    requires Alike(a, b)
    ensures NormalizeTrackingCode(a) == NormalizeTrackingCode(b) <==>
              (HasPrefix(Squash(a)) <==> HasPrefix(Squash(b))) || (!HoldsCode(a) && !HoldsCode(b))
  {
    TrimSquashed(a);
    TrimSquashed(b);
    var x, y := Squash(a), Squash(b);
    assert |x| == |Digits(x)| == |Digits(y)| == |y|;
    forall i | 0 <= i < |x|
      ensures Digit(x[i]) == Digit(y[i])
    {
      assert Digits(x)[i] == Digits(y)[i];
    }
    if HasPrefix(x) == HasPrefix(y) {
      assert Digits(WithoutPrefix(x)) == Digits(WithoutPrefix(y));
    }
  }

  lemma CanonicalIsInjective(a: string, b: string)
    requires |a| == CODE_LENGTH && |b| == CODE_LENGTH && Canonical(a) == Canonical(b)
    ensures a == b
  {
    assert forall i :: 0 <= i < 4 ==> Canonical(a)[4 + i] == a[i] && Canonical(b)[4 + i] == b[i];
    assert forall i :: 4 <= i < CODE_LENGTH ==> Canonical(a)[5 + i] == a[i] && Canonical(b)[5 + i] == b[i];
  }

  lemma PrefixSplits(value: string, body: string)
    requires |body| == CODE_LENGTH && HasPrefix(value)
    ensures Digits(WithoutPrefix(value)) == Digits(body) <==> Digits(value) == Digits(PREFIX + body)
  {
    assert forall i :: 0 <= i < CODE_LENGTH ==> Digits(value)[3 + i] == Digits(WithoutPrefix(value))[i];
    assert forall i :: 0 <= i < CODE_LENGTH ==> Digits(PREFIX + body)[3 + i] == Digits(body)[i];
    assert forall i :: 0 <= i < 3 ==> value[i] == value[..3][i] == PREFIX[i];
  }

  lemma ReadMeans(value: string, body: string)
    requires |body| == CODE_LENGTH && InAlphabet(body)
    ensures Read(value) == Some(Canonical(body)) <==> Digits(WithoutPrefix(value)) == body
  {
    var read := Digits(WithoutPrefix(value));
    if Read(value).Some? && Canonical(read) == Canonical(body) {
      CanonicalIsInjective(read, body);
    }
    hide Digits, WithoutPrefix, WithPrefix, InAlphabet;
  }

  /** All that is ever read as a code: what looks like it without the prefix, and what
      looks like it with the prefix as long as the prefix itself is right. */
  lemma ReadAsExactlyWhen(text: string, body: string)
    requires |body| == CODE_LENGTH && InAlphabet(body)
    ensures NormalizeTrackingCode(text) == Some(Canonical(body)) <==>
              Alike(text, body) || (Alike(text, Canonical(body)) && HasPrefix(Squash(text)))
  {
    hide Squash, Trim, Plain, InAlphabet, Read, HasPrefix, Digits, WithPrefix;
    var value := Squash(text);
    TrimSquashed(text);
    AlphabetIsPlain(body);
    PlainStays(body);
    PrefixLengths(value, body);
    SquashWritten(PREFIX, body);
    ReadMeans(value, body);
    if HasPrefix(value) {
      PrefixSplits(value, body);
    }
  }

  lemma PrefixLengths(value: string, body: string)
    requires |body| == CODE_LENGTH
    ensures HasPrefix(value) ==> |Digits(value)| == |PREFIX| + CODE_LENGTH
    ensures |Digits(body)| == CODE_LENGTH && Plain(PREFIX)
  {
  }

  // ----- Letter by letter --------------------------------------------------

  /** What may stand between letters, anywhere. */
  predicate Between(c: char) {
    c in " \t\n\r\U{b}\U{c}-_."
  }

  /** The letter itself, or its small form. */
  predicate Writes(c: char, letter: char) {
    c == letter || ('A' <= letter <= 'Z' && 'a' <= c <= 'z' && c - 'a' == letter - 'A')
  }

  /** The letter, or one that is easily taken for it: O for 0, I or L for 1. */
  predicate StandsFor(c: char, letter: char) {
    Writes(c, letter) || (letter == '0' && c in "Oo") || (letter == '1' && c in "IiLl")
  }

  /** The text is the word, letter by letter, whatever stands between the letters. */
  predicate WritesOut(text: string, word: string) {
    if text == [] then word == []
    else if Between(text[0]) then WritesOut(text[1..], word)
    else word != [] && Writes(text[0], word[0]) && WritesOut(text[1..], word[1..])
  }

  /** The same, look-alikes forgiven. */
  predicate Spells(text: string, word: string) {
    if text == [] then word == []
    else if Between(text[0]) then Spells(text[1..], word)
    else word != [] && StandsFor(text[0], word[0]) && Spells(text[1..], word[1..])
  }

  predicate IsLetter(c: char) {
    '0' <= c <= '9' || 'A' <= c <= 'Z'
  }

  lemma LetterMeans(c: char, letter: char)
    requires IsLetter(letter)
    ensures IsSeparator(Upper(c)) <==> Between(c)
    ensures !Between(c) ==> (Upper(c) == letter <==> Writes(c, letter))
    ensures !Between(c) && letter in ALPHABET ==> (Digit(Upper(c)) == letter <==> StandsFor(c, letter))
  {
    if letter in ALPHABET {
      AlphabetChar(letter);
    }
  }

  lemma {:induction false} WritesOutMeans(text: string, word: string)
    requires forall i :: 0 <= i < |word| ==> IsLetter(word[i])
    ensures WritesOut(text, word) <==> Squash(text) == word
  {
    if text != [] {
      LetterMeans(text[0], if word == [] then 'A' else word[0]);
      hide Between, Writes, IsSeparator, Upper, IsLetter;
      if Between(text[0]) {
        WritesOutMeans(text[1..], word);
      } else if word != [] {
        WritesOutMeans(text[1..], word[1..]);
        assert word == [word[0]] + word[1..];
      }
    }
  }

  lemma DigitsUnfold(text: string)
    requires text != []
    ensures var rest := Digits(Squash(text[1..]));
            Digits(Squash(text)) == if IsSeparator(Upper(text[0])) then rest else [Digit(Upper(text[0]))] + rest
  {
    var rest := Squash(text[1..]);
    if !IsSeparator(Upper(text[0])) {
      assert ([Upper(text[0])] + rest)[1..] == rest;
    }
  }

  lemma NothingSquashed()
    ensures Digits(Squash([])) == []
  {
  }

  lemma FirstLetterMeans(c: char, word: string)
    requires InAlphabet(word)
    ensures IsSeparator(Upper(c)) <==> Between(c)
    ensures word != [] ==> InAlphabet(word[1..])
    ensures word != [] && !Between(c) ==> (Digit(Upper(c)) == word[0] <==> StandsFor(c, word[0]))
  {
    if word == [] {
      LetterMeans(c, 'A');
    } else {
      AlphabetChar(word[0]);
      LetterMeans(c, word[0]);
    }
    hide Between, StandsFor, IsSeparator, Upper, Digit;
  }

  lemma {:induction false} SpellsMeans(text: string, word: string)
    requires InAlphabet(word)
    ensures Spells(text, word) <==> Digits(Squash(text)) == word
  {
    hide Between, StandsFor, IsSeparator, Upper, Digit, Digits, Squash, InAlphabet;
    if text == [] {
      NothingSquashed();
    } else {
      DigitsUnfold(text);
      FirstLetterMeans(text[0], word);
      if Between(text[0]) {
        SpellsMeans(text[1..], word);
      } else if word != [] {
        SpellsMeans(text[1..], word[1..]);
        assert word == [word[0]] + word[1..];
      }
    }
  }

  /** Wherever the letters are parted, the text can be. */
  lemma {:induction false} SplitSquash(text: string, n: nat) returns (k: nat)
    requires n <= |Squash(text)|
    ensures k <= |text| && Squash(text[..k]) == Squash(text)[..n] && Squash(text[k..]) == Squash(text)[n..]
    decreases |text|
  {
    if n == 0 {
      k := 0;
      assert text[..0] == [] && text[0..] == text;
    } else {
      var kept := if IsSeparator(Upper(text[0])) then 0 else 1;
      var rest := SplitSquash(text[1..], n - kept);
      k := rest + 1;
      assert text[..k] == [text[0]] + text[1..][..rest] && text[k..] == text[1..][rest..];
      SquashConcat([text[0]], text[1..][..rest]);
      assert [text[0]][1..] == [];
    }
  }

  /** The prefix written out, and then the code, look-alikes forgiven. */
  ghost predicate SpellsWithPrefix(text: string, body: string) {
    exists k :: 0 <= k <= |text| && WritesOut(text[..k], "LCM") && Spells(text[k..], body)
  }

  /** Letter by letter, what a text must be to be read as a code: the code spelled, in small
      letters or large, with O for 0 and I or L for 1 forgiven and spaces, dashes,
      underscores and dots anywhere; or that after an LCM in which no look-alike is. */
  lemma ReadLetterByLetter(text: string, body: string)
    requires |body| == CODE_LENGTH && InAlphabet(body)
    ensures NormalizeTrackingCode(text) == Some(Canonical(body)) <==> Spells(text, body) || SpellsWithPrefix(text, body)
  {
    hide Squash, Digits, Spells, WritesOut, WithPrefix, NormalizeTrackingCode, InAlphabet, IsLetter;
    ReadAsExactlyWhen(text, body);
    SpellsMeans(text, body);
    AlikeBody(text, body);
    if HasPrefix(Squash(text)) {
      AlikeWithPrefix(text, body);
      var k := SplitSquash(text, 3);
      WritesOutPrefix(text[..k]);
      SpellsMeans(text[k..], body);
    }
    if SpellsWithPrefix(text, body) {
      var k :| 0 <= k <= |text| && WritesOut(text[..k], "LCM") && Spells(text[k..], body);
      WritesOutPrefix(text[..k]);
      SpellsMeans(text[k..], body);
      assert text == text[..k] + text[k..];
      SquashConcat(text[..k], text[k..]);
      DigitsLength(Squash(text[k..]));
      assert HasPrefix(Squash(text));
      assert Squash(text)[3..] == Squash(text[k..]);
    }
  }

  lemma DigitsLength(value: string)
    ensures |Digits(value)| == |value|
  {
  }

  lemma WritesOutPrefix(text: string)
    ensures WritesOut(text, "LCM") <==> Squash(text) == "LCM"
  {
    WritesOutMeans(text, "LCM");
  }

  lemma AlikeBody(text: string, body: string)
    requires |body| == CODE_LENGTH && InAlphabet(body)
    ensures Alike(text, body) <==> Digits(Squash(text)) == body
  {
    AlphabetIsPlain(body);
    PlainStays(body);
  }

  lemma AlikeWithPrefix(text: string, body: string)
    requires |body| == CODE_LENGTH && InAlphabet(body) && HasPrefix(Squash(text))
    ensures Alike(text, Canonical(body)) <==> Digits(Squash(text)[3..]) == body
  {
    AlphabetIsPlain(body);
    assert Plain(PREFIX);
    SquashWritten(PREFIX, body);
    PrefixSplits(Squash(text), body);
    hide Squash, InAlphabet, Plain, Digits;
  }

  lemma PrefixMangled(body: string, prefix: string)
    requires |body| == CODE_LENGTH && prefix in {"1CM", "ICM"}
    ensures Digits(prefix + body) == Digits(PREFIX + body)
    ensures !HasPrefix(prefix + body) && Read(prefix + body) == None
  {
    assert (prefix + body)[0] == prefix[0] && (PREFIX + body)[0] == 'L';
  }

  /** A one or an I for the L of the prefix is such a case, whatever the code. */
  lemma PrefixIsNotForgiven(body: string, prefix: string)
    requires |body| == CODE_LENGTH && InAlphabet(body) && prefix in {"1CM", "ICM"}
    ensures Alike(WithPrefix(prefix, body), Canonical(body))
    ensures NormalizeTrackingCode(WithPrefix(prefix, body)) == None
    ensures NormalizeTrackingCode(Canonical(body)) == Some(Canonical(body))
  {
    assert Plain(prefix) && Plain(PREFIX);
    hide Squash, InAlphabet, Trim, Plain, Read, HasPrefix;
    GeneratedIsFixed(body);
    SquashWritten(prefix, body);
    SquashWritten(PREFIX, body);
    TrimSquashed(WithPrefix(prefix, body));
    PrefixMangled(body, prefix);
  }
}
