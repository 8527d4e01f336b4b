/** The interpretation step of the voice login screen (`handleVoice`): a
    transcript is lower-cased, stripped to `[a-z0-9\s]` and trimmed; four
    mishearings of "sign up" are rewritten to `signup` (first occurrence
    each); then the text is classified, in priority order, as a request to
    sign up, a full ten-digit phone number, a partial number, or nothing. */
module VoiceInterpreter {
  import opened Collections
  import opened Text

  /** The characters `/[^a-z0-9\s]/g` keeps. */
  predicate IsSpeechChar(c: char) {
    IsLowerLetter(c) || IsDigit(c) || IsSpace(c)
  }

  /** `toLowerCase().replace(/[^a-z0-9\s]/g, '').trim()`: lower-casing, the
      character filter and trimming keep every digit of the transcript. */
  function Normalise(raw: string): (r: string)
    ensures |r| <= |raw|
    ensures Digits(r) == Digits(raw)
  {
    var l := ToLower(raw);
    var f := Filter(l, IsSpeechChar);
    DigitsOfTrim(f);
    FilterThenFilter(l, IsSpeechChar, IsDigit);
    DigitsOfLower(raw);
    Trim(f)
  }

  const SignUpWord: string := "signup"

  /** The spellings rewritten to `signup`, in the order they are applied. */
  const Mishearings: seq<string> := ["sign app", "sign up", "sinup", "signap"]

  /** Each rule in turn replaces its first occurrence with `signup`. */
  function Rewrite(s: string, rules: seq<string>): string
    decreases |rules|
  {
    if rules == [] then s else Rewrite(ReplaceFirst(s, rules[0], SignUpWord), rules[1..])
  }

  /** The chain of four `replace` calls. */
  function RewriteSignUp(cleaned: string): string {
    ReplaceFirst(ReplaceFirst(ReplaceFirst(ReplaceFirst(
      cleaned, "sign app", SignUpWord), "sign up", SignUpWord), "sinup", SignUpWord), "signap", SignUpWord)
  }

  /** The chain applies the rules of `Mishearings` in their order. */
  lemma RewriteSignUpUsesMishearings(cleaned: string)
    ensures RewriteSignUp(cleaned) == Rewrite(cleaned, Mishearings)
  {
    var a := ReplaceFirst(cleaned, "sign app", SignUpWord);
    var b := ReplaceFirst(a, "sign up", SignUpWord);
    var c := ReplaceFirst(b, "sinup", SignUpWord);
    var d := ReplaceFirst(c, "signap", SignUpWord);
    assert Mishearings[1..] == ["sign up", "sinup", "signap"];
    assert Mishearings[1..][1..] == ["sinup", "signap"];
    assert Mishearings[1..][1..][1..] == ["signap"];
    assert Rewrite(c, ["signap"]) == d;
    assert Rewrite(b, ["sinup", "signap"]) == d;
    assert Rewrite(a, ["sign up", "sinup", "signap"]) == d;
  }

  datatype Intent =
    | OpenSignUp                 // speak "Opening sign up page", then navigate to SignUp
    | FullPhone(phone: string)   // set the phone, speak "Login successful", then replace with HomePage
    | PartialPhone(digits: string) // set the phone to the digits heard, then retry
    | NoMatch                    // retry only

  /** The digit branches: ten or more digits make a full number (the first
      ten), fewer make a partial one, none make nothing. */
  function PhoneIntent(digits: string): (r: Intent)
    ensures r != OpenSignUp
    ensures r.FullPhone? <==> |digits| >= 10
    ensures r.FullPhone? ==> r.phone == digits[..10]
    ensures r.PartialPhone? <==> 0 < |digits| < 10
    ensures r.PartialPhone? ==> r.digits == digits
    ensures r == NoMatch <==> digits == []
  {
    if |digits| >= 10 then FullPhone(digits[..10])
    else if |digits| > 0 then PartialPhone(digits)
    else NoMatch
  }

  /** The sign-up check comes first; only then are the digits looked at. A
      full number is ten ASCII digits of the text, a partial one the one to
      nine digits it holds. */
  function Classify(text: string): (r: Intent)
    ensures r == OpenSignUp <==> Contains(text, SignUpWord)
    ensures r.FullPhone? ==> |Digits(text)| >= 10 && r.phone == Digits(text)[..10]
    ensures r.FullPhone? ==> |r.phone| == 10 && AllDigits(r.phone)
    ensures r.PartialPhone? ==> 0 < |r.digits| < 10 && AllDigits(r.digits) && r.digits == Digits(text)
    ensures r == NoMatch <==> !Contains(text, SignUpWord) && Digits(text) == []
  {
    DigitsAreDigits(text);
    if Contains(text, SignUpWord) then OpenSignUp else PhoneIntent(Digits(text))
  }

  /** What `handleVoice` decides, stated on the raw transcript: sign-up when
      the rewritten text contains `signup`; otherwise the first ten digits
      of the transcript, in order, when there are at least ten; the digits
      heard when there are one to nine; nothing when there are none. */
  function Interpret(raw: string): (r: Intent)
    ensures var cleaned := RewriteSignUp(Normalise(raw));
      r == OpenSignUp <==> Contains(cleaned, SignUpWord)
    ensures var cleaned := RewriteSignUp(Normalise(raw));
      var d := Digits(raw);
      !Contains(cleaned, SignUpWord) ==>
        && (|d| >= 10 ==> r == FullPhone(d[..10]))
        && (0 < |d| < 10 ==> r == PartialPhone(d))
        && (d == [] ==> r == NoMatch)
    ensures r.FullPhone? ==> |Digits(raw)| >= 10 && r.phone == Digits(raw)[..10]
  {
    DigitsSurviveCleaning(raw);
    Classify(RewriteSignUp(Normalise(raw)))
  }

  /** The normalised text holds only lower-case ASCII letters, ASCII digits
      and whitespace, and neither starts nor ends with whitespace. */
  lemma NormaliseChars(raw: string)
    ensures var t := Normalise(raw);
      forall i :: 0 <= i < |t| ==> IsSpeechChar(t[i])
    ensures var t := Normalise(raw);
      t == [] || (!IsSpace(t[0]) && !IsSpace(t[|t| - 1]))
  {
    var f := Filter(ToLower(raw), IsSpeechChar);
    var t := Trim(f);
    TrimShape(f);
    TrimEnds(f);
    forall i | 0 <= i < |t| ensures IsSpeechChar(t[i]) {
      TrimKeepsChars(f, t[i]);
      FilterMembership(ToLower(raw), IsSpeechChar, t[i]);
    }
  }

  /** Normalising removes whitespace only at the two ends of the filtered
      text: inner whitespace is kept as it was. */
  lemma NormaliseKeepsInnerText(raw: string)
    ensures var f := Filter(ToLower(raw), IsSpeechChar);
      var t := Normalise(raw);
      var i := |f| - |TrimStart(f)|;
      i + |t| <= |f| && f == f[..i] + t + f[i + |t|..] && AllSpace(f[..i]) && AllSpace(f[i + |t|..])
  {
    var f := Filter(ToLower(raw), IsSpeechChar);
    assert Normalise(raw) == Trim(f);
    TrimShape(f);
  }

  /** The facts about the rewrite rules that make them unable to overlap
      each other or `signup`: each starts with `s`, has no other `s`, and
      no two are prefixes of one another. */
  ghost predicate Separable(rules: seq<string>) {
    && UniqueHead(SignUpWord)
    && (forall i :: 0 <= i < |rules| ==>
          UniqueHead(rules[i]) && rules[i][0] == SignUpWord[0] && Incomparable(rules[i], SignUpWord))
    && (forall i, j :: 0 <= i < j < |rules| ==> Incomparable(rules[i], rules[j]))
  }

  lemma MishearingsSeparable()
    ensures Separable(Mishearings)
  {
    assert "sign app"[4] != "signup"[4] && "sign app"[5] != "sign up"[5] && "sign app"[2] != "sinup"[2];
    assert "sign app"[4] != "signap"[4] && "sign up"[4] != "signup"[4] && "sign up"[2] != "sinup"[2];
    assert "sign up"[4] != "signap"[4] && "sinup"[2] != "signup"[2] && "sinup"[2] != "signap"[2];
    assert "signap"[4] != "signup"[4];
  }

  /** `signup` or one of the rules still to be applied occurs in `s`. */
  ghost predicate SignUpPending(s: string, rules: seq<string>) {
    Contains(s, SignUpWord) || exists j :: 0 <= j < |rules| && Contains(s, rules[j])
  }

  /** Once `signup` or a pending mishearing is present, the rest of the
      rewrite chain ends with `signup` present. */
  lemma {:induction false} RewriteReachesSignUp(s: string, rules: seq<string>)
    requires Separable(rules)
    requires SignUpPending(s, rules)
    ensures Contains(Rewrite(s, rules), SignUpWord)
    decreases |rules|
  {
    if rules != [] {
      var s' := ReplaceFirst(s, rules[0], SignUpWord);
      if Contains(s, SignUpWord) {
        ReplaceFirstKeeps(s, rules[0], SignUpWord, SignUpWord);
      } else if Contains(s, rules[0]) {
        ReplaceFirstInserts(s, rules[0], SignUpWord);
      } else {
        var j :| 0 <= j < |rules| && Contains(s, rules[j]);
        assert Incomparable(rules[0], rules[j]);
        ReplaceFirstKeeps(s, rules[0], SignUpWord, rules[j]);
        assert Contains(s', rules[1..][j - 1]);
      }
      assert Separable(rules[1..]) by {
        forall i, j | 0 <= i < j < |rules[1..]| ensures Incomparable(rules[1..][i], rules[1..][j]) {
          assert rules[1..][i] == rules[i + 1] && rules[1..][j] == rules[j + 1];
        }
      }
      RewriteReachesSignUp(s', rules[1..]);
    }
  }

  /** "sign up" heard in any of its five spellings anywhere in the
      transcript opens the sign-up screen, whatever digits are also
      present. */
  lemma SpokenSignUpWins(raw: string)
    requires var t := Normalise(raw);
      Contains(t, SignUpWord) || exists j :: 0 <= j < |Mishearings| && Contains(t, Mishearings[j])
    ensures Interpret(raw) == OpenSignUp
  {
    MishearingsSeparable();
    RewriteSignUpUsesMishearings(Normalise(raw));
    RewriteReachesSignUp(Normalise(raw), Mishearings);
  }

  /** Rewriting digit-free words leaves the digits alone. */
  lemma {:induction false} DigitsOfRewrite(s: string, rules: seq<string>)
    requires forall j :: 0 <= j < |rules| ==> Digits(rules[j]) == []
    ensures Digits(Rewrite(s, rules)) == Digits(s)
    decreases |rules|
  {
    if rules != [] {
      DigitsOfLetters(SignUpWord);
      DigitsOfReplaceFirst(s, rules[0], SignUpWord);
      DigitsOfRewrite(ReplaceFirst(s, rules[0], SignUpWord), rules[1..]);
    }
  }

  /** The four rewrites keep the digits. */
  lemma DigitsOfRewriteSignUp(s: string)
    ensures Digits(RewriteSignUp(s)) == Digits(s)
  {
    forall j | 0 <= j < |Mishearings| ensures Digits(Mishearings[j]) == [] {
      DigitsOfLetters(Mishearings[j]);
    }
    RewriteSignUpUsesMishearings(s);
    DigitsOfRewrite(s, Mishearings);
  }

  /** Cleaning keeps exactly the digits of the raw transcript, in order:
      lower-casing, the character filter, trimming and the rewrites never
      add, drop or move an ASCII digit. */
  lemma DigitsSurviveCleaning(raw: string)
    ensures Digits(RewriteSignUp(Normalise(raw))) == Digits(raw)
  {
    DigitsOfRewriteSignUp(Normalise(raw));
  }

  /** A full phone number is ten ASCII digits taken from the transcript in
      the order they were spoken. */
  lemma FullPhoneIsFirstTenDigits(raw: string, phone: string)
    requires Interpret(raw) == FullPhone(phone)
    ensures |phone| == 10 && AllDigits(phone)
    ensures |Digits(raw)| >= 10 && phone == Digits(raw)[..10]
    ensures IsSubsequence(Digits(raw), raw)
  {
    DigitsAreDigits(raw);
    FilterIsSubsequence(raw, IsDigit);
  }
}
