/** The transport-mode checks of transportation_validator.go.

    `strings.TrimSpace` removes Unicode white space (Go's `unicode.IsSpace`) at
    both ends. `strings.ToLower` is modelled on the letters that can matter to
    the accept/reject decision: the ASCII capitals, and the two non-ASCII
    capitals whose lower case is ASCII (U+0130 to 'i', U+212A KELVIN SIGN to 'k').
    Every other character is left as it is. */
module TransportationValidator {
  import opened Wrappers

  /** The modes `NewTransportationValidator` allows. */
  const AllowedModes: set<string> := {"air", "sea", "road", "rail", "pipeline", "multimodal"}

  /** `unicode.IsSpace`. */
  predicate IsSpace(c: char)
  {
    c == '\t' || c == '\n' || c == '\U{B}' || c == '\U{C}' || c == '\r' || c == ' '
    || c == '\U{85}' || c == '\U{A0}' || c == '\U{1680}'
    || ('\U{2000}' <= c <= '\U{200A}')
    || c == '\U{2028}' || c == '\U{2029}' || c == '\U{202F}' || c == '\U{205F}' || c == '\U{3000}'
  }

  /** The number of white-space characters `s` starts with. */
  function LeadingSpaces(s: string): (n: nat)
    ensures n <= |s|
    ensures forall k :: 0 <= k < n ==> IsSpace(s[k])
    ensures n < |s| ==> !IsSpace(s[n])
  {
    if s == [] || !IsSpace(s[0]) then 0 else 1 + LeadingSpaces(s[1..])
  }

  /** The number of white-space characters `s` ends with. */
  function TrailingSpaces(s: string): (n: nat)
    ensures n <= |s|
    ensures forall k :: |s| - n <= k < |s| ==> IsSpace(s[k])
    ensures n < |s| ==> !IsSpace(s[|s| - n - 1])
  {
    if s == [] || !IsSpace(s[|s| - 1]) then 0 else 1 + TrailingSpaces(s[..|s| - 1])
  }

  /** `strings.TrimSpace`: the slice of `s` between its leading and trailing white space. */
  function TrimSpace(s: string): (r: string)
    ensures r == [] || (!IsSpace(r[0]) && !IsSpace(r[|r| - 1]))
    ensures exists i, j :: 0 <= i <= j <= |s| && r == s[i..j]
                           && (forall k :: 0 <= k < i ==> IsSpace(s[k]))
                           && (forall k :: j <= k < |s| ==> IsSpace(s[k]))
  {
    var i := LeadingSpaces(s);
    var rest := s[i..];
    var j := i + |rest| - TrailingSpaces(rest);
    assert s[i..j] == rest[..|rest| - TrailingSpaces(rest)];
    s[i..j]
  }

  /** `unicode.ToLower`, on the characters described above. */
  function LowerChar(c: char): char
  {
    if 'A' <= c <= 'Z' then (c as int + 32) as char
    else if c == '\U{130}' then 'i'
    else if c == '\U{212A}' then 'k'
    else c
  }

  /** `strings.ToLower`. */
  function ToLower(s: string): (r: string)
    ensures |r| == |s|
    ensures forall k :: 0 <= k < |s| ==> r[k] == LowerChar(s[k])
  {
    seq(|s|, k requires 0 <= k < |s| => LowerChar(s[k]))
  }

  /** The spelling `ValidateMode` looks up. */
  function Normalize(mode: string): string
  {
    ToLower(TrimSpace(mode))
  }

  /** A `TransportationValidator`; its table is never written after construction. */
  datatype TransportationValidator = TransportationValidator(allowedModes: set<string>)

  /** `NewTransportationValidator`. */
  function NewTransportationValidator(): (tv: TransportationValidator)
    ensures tv.allowedModes == AllowedModes
  {
    TransportationValidator(AllowedModes)
  }

  /** `ValidateMode`: trim, lower-case, then look up. */
  function ValidateMode(tv: TransportationValidator, mode: string): (o: Outcome)
    ensures o == Pass <==> Normalize(mode) in tv.allowedModes
    ensures o != Pass ==> o == Fail("invalid transport mode: " + Normalize(mode))
  {
    var m := ToLower(TrimSpace(mode));
    if m !in tv.allowedModes then Fail("invalid transport mode: " + m) else Pass
  }

  /** `ApplyModeSpecificLogic`: lower-case without trimming, then switch over
      the six mode names. */
  function ApplyModeSpecificLogic(mode: string): (o: Outcome)
    ensures o == Pass <==> ToLower(mode) in AllowedModes
    ensures o != Pass ==> o == Fail("unsupported transport mode: " + mode)
  {
    match ToLower(mode)
    case "air" => Pass
    case "sea" => Pass
    case "road" => Pass
    case "rail" => Pass
    case "pipeline" => Pass
    case "multimodal" => Pass
    case _ => Fail("unsupported transport mode: " + mode)
  }

  lemma LowerCharIdempotent(c: char)
    ensures LowerChar(LowerChar(c)) == LowerChar(c)
    ensures IsSpace(LowerChar(c)) <==> IsSpace(c)
  {
  }

  lemma {:induction false} TrimSpaceOfTrimmed(s: string)
    requires s == [] || (!IsSpace(s[0]) && !IsSpace(s[|s| - 1]))
    ensures TrimSpace(s) == s
  {
    assert LeadingSpaces(s) == 0;
    assert TrailingSpaces(s) == 0;
  }

  /** Normalising twice is normalising once. */
  lemma NormalizeIdempotent(mode: string)
    ensures Normalize(Normalize(mode)) == Normalize(mode)
  {
    var t := TrimSpace(mode);
    var l := ToLower(t);
    if l != [] {
      LowerCharIdempotent(t[0]);
      LowerCharIdempotent(t[|t| - 1]);
    }
    TrimSpaceOfTrimmed(l);
    forall k | 0 <= k < |l| ensures ToLower(l)[k] == l[k] {
      LowerCharIdempotent(t[k]);
    }
  }

  /** `ValidateMode` ignores case and surrounding white space. */
  lemma ValidateModeNormalized(tv: TransportationValidator, mode: string)
    ensures ValidateMode(tv, mode) == ValidateMode(tv, Normalize(mode))
  {
    NormalizeIdempotent(mode);
  }

  /** None of the allowed names contains white space. */
  lemma AllowedHaveNoSpace(m: string, k: int)
    requires m in AllowedModes && 0 <= k < |m|
    ensures !IsSpace(m[k])
  {
  }

  /** Both checks pass exactly when the mode lower-cases to an allowed name:
      the trimming in `ValidateMode` never rescues a padded mode, because
      `ApplyModeSpecificLogic` does not trim. */
  lemma BothChecksPass(mode: string)
    ensures (ValidateMode(NewTransportationValidator(), mode) == Pass && ApplyModeSpecificLogic(mode) == Pass)
            <==> ToLower(mode) in AllowedModes
  {
    var l := ToLower(mode);
    if l in AllowedModes {
      assert |l| > 0;
      AllowedHaveNoSpace(l, 0);
      AllowedHaveNoSpace(l, |l| - 1);
      LowerCharIdempotent(mode[0]);
      LowerCharIdempotent(mode[|mode| - 1]);
      TrimSpaceOfTrimmed(mode);
    }
  }

  /** The accepted mode of the test suite. */
  lemma AirAccepted()
    ensures ValidateMode(NewTransportationValidator(), "air") == Pass
    ensures ApplyModeSpecificLogic("air") == Pass
  {
    TrimSpaceOfTrimmed("air");
    assert ToLower("air") == "air";
  }

  /** The rejected mode of the test suite. */
  lemma InvalidModeRejected()
    ensures ValidateMode(NewTransportationValidator(), "invalid_mode") == Fail("invalid transport mode: invalid_mode")
  {
    TrimSpaceOfTrimmed("invalid_mode");
    assert ToLower("invalid_mode") == "invalid_mode";
  }

  /** A padded mode that `ValidateMode` accepts and `ApplyModeSpecificLogic` rejects. */
  lemma PaddedModeSplits()
    ensures ValidateMode(NewTransportationValidator(), " Air ") == Pass
    ensures ApplyModeSpecificLogic(" air") == Fail("unsupported transport mode:  air")
  {
    assert LeadingSpaces(" Air ") == 1;
    assert TrailingSpaces("Air ") == 1;
    assert TrimSpace(" Air ") == "Air";
    assert ToLower("Air") == "air";
    var l := ToLower(" air");
    assert l[0] == ' ';
    if l in AllowedModes {
      AllowedHaveNoSpace(l, 0);
    }
  }
}
