/** The notification settings of the `wms` tree, read from the environment:
    whether notifications are on, who receives them, and the low-stock
    threshold. Each setting keeps its default unless its variable holds a
    value that parses. */
module Notifications {
  import opened Base
  import opened Text

  datatype Config = Config(enabled: bool, recipients: seq<String>, lowStockThreshold: int)

  const EnabledVar: String := "WMS_NOTIFICATIONS_ENABLED"
  const RecipientsVar: String := "WMS_NOTIFICATIONS_RECIPIENTS"
  const ThresholdVar: String := "WMS_LOW_STOCK_THRESHOLD"
  const DefaultRecipient: String := "warehouse@local"
  const DefaultThreshold := 10

  /** Go's `strconv.ParseBool`. */
  function ParseBool(s: String): Option<bool> {
    if s in {"1", "t", "T", "TRUE", "true", "True"} then Some(true)
    else if s in {"0", "f", "F", "FALSE", "false", "False"} then Some(false)
    else None
  }

  lemma ParseBoolBlank()
    ensures ParseBool([]) == None
  {
    var e: String := [];
    assert forall t: String :: t in {"1", "t", "T", "TRUE", "true", "True"} ==> |t| > 0;
    assert forall t: String :: t in {"0", "f", "F", "FALSE", "false", "False"} ==> |t| > 0;
  }

  predicate IsDigit(c: char) { '0' <= c <= '9' }

  predicate AllDigits(s: String) {
    forall k :: 0 <= k < |s| ==> IsDigit(s[k])
  }

  /** The value of a string of decimal digits. */
  function DigitsValue(s: String): (n: nat)
    requires AllDigits(s)
    decreases |s|
  {
    if s == [] then 0 else DigitsValue(s[..|s| - 1]) * 10 + (s[|s| - 1] as int - '0' as int)
  }

  /** An optional sign followed by at least one decimal digit. */
  predicate IsInteger(s: String) {
    s != [] && (AllDigits(s) || ((s[0] == '+' || s[0] == '-') && |s| > 1 && AllDigits(s[1..])))
  }

  /** The integer such a string denotes: its digits, negated after a minus sign. */
  function IntegerValue(s: String): int
    requires IsInteger(s)
  {
    if s[0] == '-' then -(DigitsValue(s[1..]) as int)
    else if s[0] == '+' then DigitsValue(s[1..]) as int
    else DigitsValue(s) as int
  }

  /** Go's `int` on a 64-bit platform. */
  const MinInt := -0x8000_0000_0000_0000
  const MaxInt := 0x7FFF_FFFF_FFFF_FFFF

  /** Go's `strconv.Atoi`: an optional sign and at least one decimal digit,
      the value within the range of `int`. */
  function Atoi(s: String): (r: Option<int>)
    ensures r.Some? ==> MinInt <= r.value <= MaxInt
    ensures r.Some? ==> s != [] && (AllDigits(s) || ((s[0] == '+' || s[0] == '-') && AllDigits(s[1..])))
    ensures r.Some? <==> IsInteger(s) && MinInt <= IntegerValue(s) <= MaxInt
    ensures r.Some? ==> r.value == IntegerValue(s)
  {
    var signed := s != [] && (s[0] == '+' || s[0] == '-');
    var body := if signed then s[1..] else s;
    if body == [] || !AllDigits(body) then None
    else
      var v: int := if signed && s[0] == '-' then -(DigitsValue(body) as int) else DigitsValue(body);
      if MinInt <= v <= MaxInt then Some(v) else None
  }

  /** Decimal notation of a natural number, as `strconv.Itoa` writes it. */
  function Decimal(n: nat): (s: String)
    ensures s != [] && AllDigits(s)
    ensures s[0] != '-' && s[0] != '+'
  {
    if n < 10 then ['0' + n as char]
    else
      var d := Decimal(n / 10);
      d + ['0' + (n % 10) as char]
  }

  lemma {:induction false} DecimalValue(n: nat)
    ensures DigitsValue(Decimal(n)) == n
  {
    if n >= 10 {
      DecimalValue(n / 10);
      var s := Decimal(n);
      assert s[..|s| - 1] == Decimal(n / 10);
    }
  }

  /** Atoi reads back every non-negative `int` written in decimal. */
  lemma AtoiDecimal(n: nat)
    requires n <= MaxInt
    ensures Atoi(Decimal(n)) == Some(n)
  {
    DecimalValue(n);
  }

  /** The recipient list the loop builds: each comma-separated part trimmed,
      the blank ones dropped, in input order. */
  function Recipients(parts: seq<String>): (out: seq<String>)
    ensures |out| <= |parts|
    ensures forall k :: 0 <= k < |out| ==> out[k] != [] && IsTrimmed(out[k])
    decreases |parts|
  {
    if parts == [] then []
    else
      var p := TrimSpace(parts[|parts| - 1]);
      var rest := Recipients(parts[..|parts| - 1]);
      AppendClean(rest, p);
      rest + (if p != [] then [p] else [])
  }

  lemma AppendClean(rest: seq<String>, p: String)
    requires forall k :: 0 <= k < |rest| ==> rest[k] != [] && IsTrimmed(rest[k])
    requires IsTrimmed(p)
    ensures var out := rest + (if p != [] then [p] else []);
      forall k :: 0 <= k < |out| ==> out[k] != [] && IsTrimmed(out[k])
  {
  }

  /** Parts that are already trimmed and non-blank all survive, unchanged. */
  lemma {:induction false} RecipientsOfClean(parts: seq<String>)
    requires forall k :: 0 <= k < |parts| ==> parts[k] != [] && IsTrimmed(parts[k])
    ensures Recipients(parts) == parts
    decreases |parts|
  {
    if parts != [] {
      RecipientsOfClean(parts[..|parts| - 1]);
      TrimSpaceOfTrimmed(parts[|parts| - 1]);
    }
  }

  /** A list of clean addresses written comma-separated is read back as itself. */
  lemma RecipientsRoundTrip(names: seq<String>)
    requires |names| >= 1
    requires forall k :: 0 <= k < |names| ==> names[k] != [] && IsTrimmed(names[k]) && ',' !in names[k]
    ensures Recipients(Split(Join(names, ','), ',')) == names
  {
    SplitJoin(names, ',');
    RecipientsOfClean(names);
  }

  lemma RecipientsStep(parts: seq<String>, i: nat)
    requires i < |parts|
    ensures Recipients(parts[..i + 1]) ==
      Recipients(parts[..i]) + (if TrimSpace(parts[i]) != [] then [TrimSpace(parts[i])] else [])
  {
    assert parts[..i + 1][..i] == parts[..i];
  }

  method CleanRecipients(parts: seq<String>) returns (out: seq<String>)
    ensures out == Recipients(parts)
  {
    out := [];
    var i := 0;
    while i < |parts|
      invariant 0 <= i <= |parts|
      invariant out == Recipients(parts[..i])
    {
      RecipientsStep(parts, i);
      var p := TrimSpace(parts[i]);
      if p != [] {
        out := out + [p];
      }
      i := i + 1;
    }
    assert parts[..|parts|] == parts;
  }

  /** The enabled flag: the variable's value when it parses as a boolean,
      otherwise on. */
  function EnabledSetting(env: Env): bool {
    match ParseBool(TrimSpace(Getenv(env, EnabledVar)))
    case Some(b) => b
    case None => true
  }

  /** The recipients: the cleaned comma-separated list, or the default
      address when that is empty. */
  function RecipientsSetting(env: Env): (rs: seq<String>)
    ensures rs != []
  {
    var rs := Recipients(Split(TrimSpace(Getenv(env, RecipientsVar)), ','));
    if rs != [] then rs else [DefaultRecipient]
  }

  /** The low-stock threshold: the variable's value when it is a
      non-negative integer, otherwise the default. */
  function ThresholdSetting(env: Env): (n: int)
    ensures n >= 0
    ensures var v := TrimSpace(Getenv(env, ThresholdVar));
      && (Atoi(v).Some? && Atoi(v).value >= 0 ==> n == Atoi(v).value)
      && (Atoi(v).None? || Atoi(v).value < 0 ==> n == DefaultThreshold)
  {
    ThresholdOf(TrimSpace(Getenv(env, ThresholdVar)))
  }

  /** The threshold a trimmed value gives. */
  function ThresholdOf(v: String): (n: int)
    ensures n >= 0
    ensures n != DefaultThreshold ==> Atoi(v) == Some(n)
    ensures Atoi(v).Some? && Atoi(v).value >= 0 ==> n == Atoi(v).value
    ensures Atoi(v).None? || Atoi(v).value < 0 ==> n == DefaultThreshold
  {
    match Atoi(v)
    case Some(n) => if n >= 0 then n else DefaultThreshold
    case None => DefaultThreshold
  }

  /** Any threshold in range, written in decimal, is the threshold read. */
  lemma ThresholdOfDecimal(n: nat)
    requires n <= MaxInt
    ensures ThresholdOf(Decimal(n)) == n
  {
    AtoiDecimal(n);
  }

  /** A variable holding a threshold in decimal sets exactly that threshold. */
  lemma ThresholdSettingReads(env: Env, n: nat)
    requires n <= MaxInt
    requires ThresholdVar in env && env[ThresholdVar] == Decimal(n)
    ensures ThresholdSetting(env) == n
  {
    TrimSpaceOfTrimmed(Decimal(n));
    ThresholdOfDecimal(n);
  }

  /** LoadConfigFromEnv: each setting starts at its default and is read
      from its own variable. */
  method LoadConfigFromEnv(env: Env) returns (cfg: Config)
    ensures cfg.enabled == EnabledSetting(env)
    ensures cfg.recipients == RecipientsSetting(env)
    ensures cfg.lowStockThreshold == ThresholdSetting(env)
  {
    var recipients := ReadRecipients(env);
    var threshold := ReadThreshold(env);
    cfg := Config(true, recipients, threshold);
    var enabled := ReadEnabled(env);
    if !enabled {
      cfg := Config(false, recipients, threshold);
    }
  }

  method ReadEnabled(env: Env) returns (enabled: bool)
    ensures enabled == EnabledSetting(env)
  {
    enabled := true;
    var v := TrimSpace(Getenv(env, EnabledVar));
    if v != [] {
      match ParseBool(v) {
        case Some(b) => enabled := b;
        case None =>
      }
    } else {
      ParseBoolBlank();
    }
  }

  method ReadRecipients(env: Env) returns (recipients: seq<String>)
    ensures recipients == RecipientsSetting(env)
  {
    recipients := [DefaultRecipient];
    var v := TrimSpace(Getenv(env, RecipientsVar));
    if v != [] {
      var out := CleanRecipients(Split(v, ','));
      if |out| > 0 {
        recipients := out;
      }
    } else {
      assert Split(v, ',') == [[]];
    }
  }

  method ReadThreshold(env: Env) returns (threshold: int)
    ensures threshold == ThresholdSetting(env)
  {
    var v := TrimSpace(Getenv(env, ThresholdVar));
    threshold := ParseThreshold(v);
  }

  method ParseThreshold(v: String) returns (threshold: int)
    ensures threshold == ThresholdOf(v)
  {
    threshold := DefaultThreshold;
    if v != [] {
      match Atoi(v) {
        case Some(n) =>
          if n >= 0 {
            threshold := n;
          }
        case None =>
      }
    }
  }

  /** With none of the three variables set, the defaults stand. */
  lemma Defaults(env: Env)
    requires EnabledVar !in env && RecipientsVar !in env && ThresholdVar !in env
    ensures ParseBool(TrimSpace(Getenv(env, EnabledVar))) == None
    ensures Recipients(Split(TrimSpace(Getenv(env, RecipientsVar)), ',')) == []
    ensures Atoi(TrimSpace(Getenv(env, ThresholdVar))) == None
    ensures EnabledSetting(env) && RecipientsSetting(env) == [DefaultRecipient]
    ensures ThresholdSetting(env) == DefaultThreshold
  {
    assert Split([], ',') == [[]];
    assert Recipients([[]]) == Recipients([]) + [];
  }
}
