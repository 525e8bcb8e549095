/** Validation and defaulting of the update strategy, and the batch size computed from it. */
module BatchSize {
  import opened Common
  import opened Numerals

  // ----- the percentage forms -----

  /** strings.Trim(s, "%"). */
  function TrimPercent(s: string): string {
    if s == [] then []
    else if s[0] == '%' then TrimPercent(s[1..])
    else if s[|s| - 1] == '%' then TrimPercent(s[..|s| - 1])
    else s
  }

  /** strings.Replace(s, "%", "", -1). */
  function DropPercent(s: string): string {
    if s == [] then [] else (if s[0] == '%' then [] else [s[0]]) + DropPercent(s[1..])
  }

  /** The smallest whole number of nodes that is at least `percent` percent of `total`. */
  function CeilPercent(percent: int, total: int): (r: int)
    ensures 100 * (r - 1) < percent * total <= 100 * r
  {
    (percent * total + 99) / 100
  }

  // ----- the strategy -----

  datatype IntOrString = IntValue(number: int) | StrValue(text: string)

  datatype Strategy = Strategy(kind: string, mode: string, maxUnavailable: IntOrString, drainTimeout: Option<int>)

  const RANDOM := "randomUpdate"
  const UNIFORM := "uniformAcrossAzUpdate"
  const LAZY := "lazy"
  const EAGER := "eager"

  predicate AcceptableMax(m: IntOrString) {
    match m
    case IntValue(n) => n >= 0
    case StrValue(s) => 1 <= Atoi(TrimPercent(s)).0 <= 100
  }

  predicate Acceptable(s: Strategy) {
    && (s.kind == "" || ContainsEqualFold([RANDOM, UNIFORM], s.kind))
    && (s.mode == "" || ContainsEqualFold([LAZY, EAGER], s.mode))
    && AcceptableMax(s.maxUnavailable)
    && (s.drainTimeout.Some? ==> s.drainTimeout.value >= -1)
  }

  function Defaulted(s: Strategy): Strategy {
    Strategy(
      if s.kind == "" then RANDOM else s.kind,
      if s.mode == "" then LAZY else s.mode,
      if s.maxUnavailable == IntValue(0) then IntValue(1) else s.maxUnavailable,
      if s.drainTimeout == Some(0) then Some(-1) else s.drainTimeout)
  }

  /** The strategy fields of the resource, which Validate defaults in place. */
  class RollingUpgradeSpec {
    var kind: string
    var mode: string
    var maxUnavailable: IntOrString
    var drainTimeout: Option<int>

    function Value(): Strategy
      reads this
    {
      Strategy(kind, mode, maxUnavailable, drainTimeout)
    }

    constructor (s: Strategy)
      ensures Value() == s
    {
      kind, mode, maxUnavailable, drainTimeout := s.kind, s.mode, s.maxUnavailable, s.drainTimeout;
    }

    /** On rejection some fields may already hold their default; the caller then discards the object. */
    method Validate() returns (ok: bool)
      modifies this
      ensures ok <==> Acceptable(old(Value()))
      ensures ok ==> Value() == Defaulted(old(Value()))
      ensures kind == old(kind) || kind == Defaulted(old(Value())).kind
      ensures mode == old(mode) || mode == Defaulted(old(Value())).mode
      ensures maxUnavailable == old(maxUnavailable) || maxUnavailable == Defaulted(old(Value())).maxUnavailable
      ensures drainTimeout == old(drainTimeout) || drainTimeout == Defaulted(old(Value())).drainTimeout
    {
      if kind == "" {
        kind := RANDOM;
      } else if !ContainsEqualFold([RANDOM, UNIFORM], kind) {
        return false;
      }
      if mode == "" {
        mode := LAZY;
      } else if !ContainsEqualFold([LAZY, EAGER], mode) {
        return false;
      }
      match maxUnavailable {
        case IntValue(n) =>
          if n == 0 {
            maxUnavailable := IntValue(1);
          } else if n < 0 {
            return false;
          }
        case StrValue(s) =>
          var value := Atoi(TrimPercent(s)).0;
          if value <= 0 || value > 100 {
            return false;
          }
      }
      match drainTimeout {
        case None =>
        case Some(t) =>
          if t == 0 {
            drainTimeout := Some(-1);
          } else if t < -1 {
            return false;
          }
      }
      return true;
    }
  }

  /** Validating a defaulted strategy again accepts it and changes nothing. */
  lemma DefaultingIsIdempotent(s: Strategy)
    requires Acceptable(s)
    ensures Acceptable(Defaulted(s)) && Defaulted(Defaulted(s)) == Defaulted(s)
  {
    assert EqualFold([RANDOM, UNIFORM][0], RANDOM);
    assert EqualFold([LAZY, EAGER][0], LAZY);
  }

  /**
   * Which strategies are accepted, in full: type and mode are absent or one of two words each, in any
   * case; a count is not negative, a string reads as 1 to 100 once percent signs at its ends are taken
   * off; a drain timeout is absent or at least -1.
   */
  lemma AcceptedMeans(s: Strategy)
    ensures Acceptable(s) <==>
      && (s.kind == "" || Fold(s.kind) == "randomupdate" || Fold(s.kind) == "uniformacrossazupdate")
      && (s.mode == "" || Fold(s.mode) == "lazy" || Fold(s.mode) == "eager")
      && (s.maxUnavailable.IntValue? ==> 0 <= s.maxUnavailable.number)
      && (s.maxUnavailable.StrValue? ==> 1 <= Atoi(TrimPercent(s.maxUnavailable.text)).0 <= 100)
      && (s.drainTimeout.None? || -1 <= s.drainTimeout.value)
  {
    assert Fold(RANDOM) == "randomupdate" && Fold(UNIFORM) == "uniformacrossazupdate";
    assert Fold(LAZY) == "lazy" && Fold(EAGER) == "eager";
    assert [RANDOM, UNIFORM][0] == RANDOM && [RANDOM, UNIFORM][1] == UNIFORM;
    assert [LAZY, EAGER][0] == LAZY && [LAZY, EAGER][1] == EAGER;
    TwoWords(RANDOM, UNIFORM, s.kind);
    TwoWords(LAZY, EAGER, s.mode);
  }

  lemma TwoWords(a: string, b: string, s: string)
    ensures ContainsEqualFold([a, b], s) <==> Fold(s) == Fold(a) || Fold(s) == Fold(b)
  {
    assert [a, b][0] == a && [a, b][1] == b;
  }

  /**
   * What an accepted strategy is once validated: no field is left unset or at a meaningless zero, and a
   * field that was set to something else is as it was.
   */
  lemma DefaultedMeans(s: Strategy)
    requires Acceptable(s)
    ensures var d := Defaulted(s);
      && (if s.kind == "" then d.kind == "randomUpdate" else d.kind == s.kind)
      && (if s.mode == "" then d.mode == "lazy" else d.mode == s.mode)
      && d.maxUnavailable != IntValue(0) && (s.maxUnavailable != IntValue(0) ==> d.maxUnavailable == s.maxUnavailable)
      && (s.maxUnavailable == IntValue(0) ==> d.maxUnavailable == IntValue(1))
      && (d.drainTimeout.Some? ==> d.drainTimeout.value == -1 || d.drainTimeout.value > 0)
      && (s.drainTimeout != Some(0) ==> d.drainTimeout == s.drainTimeout)
      && d.drainTimeout.Some? == s.drainTimeout.Some?
  {
  }

  lemma TrimOne(s: string)
    requires s != [] && s[0] != '%' && s[|s| - 1] != '%'
    ensures TrimPercent(s + "%") == s
  {
    assert (s + "%")[..|s|] == s;
  }

  /** A percentage is accepted exactly from 1 to 100. */
  lemma PercentAccepted(p: nat)
    ensures AcceptableMax(StrValue(Decimal(p) + "%")) <==> 1 <= p <= 100
    ensures !AcceptableMax(StrValue(['-'] + Decimal(p) + "%"))
  {
    DecimalValue(p);
    var s := Decimal(p);
    assert IsDigit(s[0]) && IsDigit(s[|s| - 1]);
    TrimOne(s);
    TrimOne(['-'] + s);
    AtoiOfDecimal(p);
  }

  // ----- the batch size -----

  function CalculateMaxUnavailable(m: IntOrString, total: int): int {
    var raw := match m
      case IntValue(n) => n
      case StrValue(s) =>
        if '%' in s then
          (var (value, ok) := Atoi(DropPercent(s)); if ok then CeilPercent(value, total) else 0)
        else
          Atoi(s).0;
    var capped := if raw > total then total else raw;
    if capped == 0 then 1 else capped
  }

  lemma {:induction false} DropPercentConcat(a: string, b: string)
    ensures DropPercent(a + b) == DropPercent(a) + DropPercent(b)
  {
    if a == [] {
      assert a + b == b;
    } else {
      assert (a + b)[1..] == a[1..] + b;
      DropPercentConcat(a[1..], b);
    }
  }

  lemma {:induction false} DropPercentKeeps(s: string)
    requires '%' !in s
    ensures DropPercent(s) == s
  {
    if s != [] {
      DropPercentKeeps(s[1..]);
    }
  }

  /** Trimming removes only percent signs, so dropping every percent sign afterwards gives the same string. */
  lemma {:induction false} DropAfterTrim(s: string)
    ensures DropPercent(TrimPercent(s)) == DropPercent(s)
    decreases |s|
  {
    if s == [] {
    } else if s[0] == '%' {
      DropAfterTrim(s[1..]);
    } else if s[|s| - 1] == '%' {
      DropAfterTrim(s[..|s| - 1]);
      assert s == s[..|s| - 1] + ['%'];
      DropPercentConcat(s[..|s| - 1], ['%']);
      assert DropPercent(['%']) == [];
    }
  }

  lemma WellFormedHasNoPercent(s: string)
    requires WellFormedInt(s)
    ensures '%' !in s
  {
    if s[0] == '+' || s[0] == '-' {
      assert s == [s[0]] + Unsigned(s);
    }
  }

  /** The two readings of a percentage, one validating and one computing, agree on every string validation accepts. */
  lemma AcceptedStringReading(s: string)
    requires AcceptableMax(StrValue(s))
    ensures Atoi(DropPercent(s)) == (Atoi(TrimPercent(s)).0, true)
    ensures '%' !in s ==> Atoi(s).0 == Atoi(TrimPercent(s)).0
  {
    var t := TrimPercent(s);
    assert WellFormedInt(t);
    WellFormedHasNoPercent(t);
    DropPercentKeeps(t);
    DropAfterTrim(s);
    if '%' !in s {
      DropPercentKeeps(s);
    }
  }

  lemma PercentBounds(p: int, total: nat)
    requires 1 <= p <= 100
    ensures 0 <= CeilPercent(p, total) <= total
    ensures total > 0 ==> CeilPercent(p, total) >= 1
  {
    assert 0 <= p * total <= 100 * total;
    if total > 0 {
      assert p * total >= 1;
    }
  }

  /**
   * For every strategy that validation accepts, after defaulting, and every capacity: the batch size
   * is within 1 .. max(1, capacity); a percentage gives the least number of nodes that covers it, and
   * a count gives that count capped at the capacity.
   */
  lemma BatchSizeBound(s: Strategy, total: nat)
    requires Acceptable(s)
    ensures var k := CalculateMaxUnavailable(Defaulted(s).maxUnavailable, total);
      && 1 <= k <= (if total > 1 then total else 1)
      && match s.maxUnavailable {
           case IntValue(n) => total > 0 ==> (if n == 0 then k == 1 else if n <= total then k == n else k == total)
           case StrValue(str) =>
             var p := Atoi(TrimPercent(str)).0;
             total > 0 ==>
               if '%' in str then 100 * (k - 1) < p * total <= 100 * k
               else if p <= total then k == p else k == total
         }
  {
    match s.maxUnavailable {
      case IntValue(n) =>
      case StrValue(str) =>
        AcceptedStringReading(str);
        PercentBounds(Atoi(TrimPercent(str)).0, total);
    }
  }

  type Accepted = s: Strategy | Acceptable(s) witness Strategy("", "", IntValue(1), None)

  /** The batch limit of an accepted strategy for a group of the given desired capacity. */
  function BatchLimit(s: Accepted, desired: nat): (k: nat)
    ensures 1 <= k && k <= (if desired > 1 then desired else 1)
  {
    BatchSizeBound(s, desired);
    CalculateMaxUnavailable(Defaulted(s).maxUnavailable, desired)
  }

  // ----- canonical spelling -----

  /** How selection reads the strategy type: by exact comparison (controllers/upgrade.go:544,548). */
  datatype Kind = Random | Uniform | Unrecognised

  function KindOf(kind: string): Kind {
    if kind == RANDOM then Random else if kind == UNIFORM then Uniform else Unrecognised
  }

  /** How the mode switch reads the mode: by exact comparison (controllers/upgrade.go:181-255). */
  datatype Mode = Lazy | Eager | NoMode

  function ModeOf(mode: string): Mode {
    if mode == LAZY then Lazy else if mode == EAGER then Eager else NoMode
  }

  /**
   * Validation folds case but selection does not: an accepted type or mode is recognised later exactly
   * when it was empty or spelled canonically, and there are accepted ones that are not recognised.
   */
  lemma AcceptedKindRecognised(s: Strategy)
    requires Acceptable(s)
    ensures KindOf(Defaulted(s).kind) == Random <==> s.kind in {"", "randomUpdate"}
    ensures KindOf(Defaulted(s).kind) == Uniform <==> s.kind == "uniformAcrossAzUpdate"
    ensures ModeOf(Defaulted(s).mode) == Lazy <==> s.mode in {"", "lazy"}
    ensures ModeOf(Defaulted(s).mode) == Eager <==> s.mode == "eager"
    ensures var odd := Strategy("RANDOMUPDATE", "LAZY", IntValue(1), None);
            Acceptable(odd) && KindOf(Defaulted(odd).kind) == Unrecognised && ModeOf(Defaulted(odd).mode) == NoMode
  {
    var odd := Strategy("RANDOMUPDATE", "LAZY", IntValue(1), None);
    assert Fold("RANDOMUPDATE") == Fold(RANDOM) == "randomupdate";
    assert EqualFold([RANDOM, UNIFORM][0], odd.kind);
    assert EqualFold([LAZY, EAGER][0], odd.mode) by {
      assert Fold("LAZY") == Fold(LAZY) == "lazy";
    }
    assert odd.kind[0] != RANDOM[0] && odd.kind[0] != UNIFORM[0];
    assert odd.mode[0] != LAZY[0] && odd.mode[0] != EAGER[0];
    assert RANDOM[0] != UNIFORM[0] && LAZY[0] != EAGER[0];
  }
}
