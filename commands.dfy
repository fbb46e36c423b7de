/** The settings enumerations of the HP 5316 driver, the command tables they index,
    and the commands the driver writes to the instrument. */
module Commands {

  import opened Wrappers

  /** `HP5316X.TriggerLevelModes` */
  datatype TriggerLevelMode = FrontControl | SetLevel
  {
    /** The enum's `.value`: its position in declaration order and its index into
        TRIGGERLEVELMODES_LIST. */
    function Value(): (v: nat)
      ensures v < |TRIGGER_LEVEL_MODES| && TRIGGER_LEVEL_MODES[v] == this
      ensures v < |TRIGGERLEVELMODES_LIST|
    {
      match this
      case FrontControl => 0
      case SetLevel => 1
    }
  }

  /** `HP5316X.TriggerSlopes` */
  datatype TriggerSlope = Positive | Negative
  {
    /** The enum's `.value`: its position in declaration order and its index into
        TRIGGERSLOPES_A_LIST and TRIGGERSLOPES_B_LIST. */
    function Value(): (v: nat)
      ensures v < |TRIGGER_SLOPES| && TRIGGER_SLOPES[v] == this
      ensures v < |TRIGGERSLOPES_A_LIST| && v < |TRIGGERSLOPES_B_LIST|
    {
      match this
      case Positive => 0
      case Negative => 1
    }
  }

  /** `HP5316X.GateModes` */
  datatype GateMode = LongFront | ShortFront | LongRear | ShortRear
  {
    /** The enum's `.value`: its position in declaration order and its index into
        GATEMODES_LIST. */
    function Value(): (v: nat)
      ensures v < |GATE_MODES| && GATE_MODES[v] == this
      ensures v < |GATEMODES_LIST|
    {
      match this
      case LongFront => 0
      case ShortFront => 1
      case LongRear => 2
      case ShortRear => 3
    }
  }

  /** `HP5316X.MeasModes` */
  datatype MeasMode =
    | DisplayTest | FreqA | IntAToB | IntDelay | RatioAB | FreqC | TotalizeStop | PeriodA
    | IntAvgAToB | Check10MHz | AGatedByB | GateTime | TotalizeStart
    | FreqAArmedByBPos | FreqAArmedByBNeg
  {
    /** The enum's `.value`: its position in declaration order and its index into
        MEASMODES_LIST. */
    function Value(): (v: nat)
      ensures v < |MEAS_MODES| && MEAS_MODES[v] == this
      ensures v < |MEASMODES_LIST|
    {
      match this
      case DisplayTest => 0
      case FreqA => 1
      case IntAToB => 2
      case IntDelay => 3
      case RatioAB => 4
      case FreqC => 5
      case TotalizeStop => 6
      case PeriodA => 7
      case IntAvgAToB => 8
      case Check10MHz => 9
      case AGatedByB => 10
      case GateTime => 11
      case TotalizeStart => 12
      case FreqAArmedByBPos => 13
      case FreqAArmedByBNeg => 14
    }
  }

  // The members of each enumeration in declaration order (iterating a Python Enum).
  const TRIGGER_LEVEL_MODES: seq<TriggerLevelMode> := [FrontControl, SetLevel]
  const TRIGGER_SLOPES: seq<TriggerSlope> := [Positive, Negative]
  const GATE_MODES: seq<GateMode> := [LongFront, ShortFront, LongRear, ShortRear]
  const MEAS_MODES: seq<MeasMode> :=
    [DisplayTest, FreqA, IntAToB, IntDelay, RatioAB, FreqC, TotalizeStop, PeriodA,
     IntAvgAToB, Check10MHz, AGatedByB, GateTime, TotalizeStart,
     FreqAArmedByBPos, FreqAArmedByBNeg]

  // The command tables, indexed by the enums' values.
  const GATEMODES_LIST: seq<string> := ["GA0", "GA1", "GA2", "GA3"]
  const TRIGGERLEVELMODES_LIST: seq<string> := ["TR0", "TR1"]
  const TRIGGERSLOPES_A_LIST: seq<string> := ["AS0", "AS1"]
  const TRIGGERSLOPES_B_LIST: seq<string> := ["BS0", "BS1"]
  const MEASMODES_LIST: seq<string> :=
    ["FN0", "FN1", "FN2", "FN3", "FN4", "FN5", "FN6", "FN7",
     "FN8", "FN9", "FN10", "FN11", "FN12", "FN13", "FN14"]

  /** Each table has exactly one entry per member of its enumeration, and the
      enumeration's values number the entries one to one. */
  lemma TablesMatchEnums()
    ensures |TRIGGER_LEVEL_MODES| == |TRIGGERLEVELMODES_LIST|
    ensures forall i :: 0 <= i < |TRIGGER_LEVEL_MODES| ==> TRIGGER_LEVEL_MODES[i].Value() == i
    ensures forall m: TriggerLevelMode :: m in TRIGGER_LEVEL_MODES
    ensures |TRIGGER_SLOPES| == |TRIGGERSLOPES_A_LIST| == |TRIGGERSLOPES_B_LIST|
    ensures forall i :: 0 <= i < |TRIGGER_SLOPES| ==> TRIGGER_SLOPES[i].Value() == i
    ensures forall s: TriggerSlope :: s in TRIGGER_SLOPES
    ensures |GATE_MODES| == |GATEMODES_LIST|
    ensures forall i :: 0 <= i < |GATE_MODES| ==> GATE_MODES[i].Value() == i
    ensures forall g: GateMode :: g in GATE_MODES
    ensures |MEAS_MODES| == |MEASMODES_LIST|
    ensures forall i :: 0 <= i < |MEAS_MODES| ==> MEAS_MODES[i].Value() == i
    ensures forall m: MeasMode :: m in MEAS_MODES
  {
    forall m: TriggerLevelMode ensures m in TRIGGER_LEVEL_MODES {
      assert TRIGGER_LEVEL_MODES[m.Value()] == m;
    }
    forall s: TriggerSlope ensures s in TRIGGER_SLOPES {
      assert TRIGGER_SLOPES[s.Value()] == s;
    }
    forall g: GateMode ensures g in GATE_MODES {
      assert GATE_MODES[g.Value()] == g;
    }
    forall m: MeasMode ensures m in MEAS_MODES {
      assert MEAS_MODES[m.Value()] == m;
    }
  }

  /** The character of the decimal digit `d`. */
  function DigitChar(d: nat): (c: char)
    requires d < 10
    ensures '0' <= c <= '9' && c as int - '0' as int == d
  {
    (d + '0' as int) as char
  }

  /** `str(n)` for a natural number: its decimal digits, most significant first. */
  function DecimalString(n: nat): (s: string)
    ensures |s| > 0
    ensures forall k :: 0 <= k < |s| ==> '0' <= s[k] <= '9'
  {
    if n < 10 then [DigitChar(n)] else DecimalString(n / 10) + [DigitChar(n % 10)]
  }

  /** The number a string of decimal digits denotes. */
  function DecimalValue(s: string): nat
    requires forall k :: 0 <= k < |s| ==> '0' <= s[k] <= '9'
  {
    if s == [] then 0 else 10 * DecimalValue(s[..|s| - 1]) + (s[|s| - 1] as int - '0' as int)
  }

  lemma {:induction false} DecimalRoundTrip(n: nat)
    ensures DecimalValue(DecimalString(n)) == n
  {
    var s := DecimalString(n);
    if n < 10 {
      assert s[..|s| - 1] == [];
    } else {
      DecimalRoundTrip(n / 10);
      assert s[..|s| - 1] == DecimalString(n / 10);
    }
  }

  /** Two table entries with the same mnemonic are equal only if their indices are. */
  lemma PrefixedDecimalInjective(prefix: string, i: nat, j: nat)
    ensures prefix + DecimalString(i) == prefix + DecimalString(j) <==> i == j
  {
    if prefix + DecimalString(i) == prefix + DecimalString(j) {
      assert DecimalString(i) == (prefix + DecimalString(i))[|prefix|..];
      assert DecimalString(j) == (prefix + DecimalString(j))[|prefix|..];
      DecimalRoundTrip(i);
      DecimalRoundTrip(j);
    }
  }

  /** The mnemonic of the trigger-slope table of a channel. */
  function SlopeMnemonic(ch: Channel): string
  {
    if ch == A then "AS" else "BS"
  }

  /** `TRIGGERLEVELMODES_LIST[mode.value]` */
  function TriggerLevelModeCommand(mode: TriggerLevelMode): (t: string)
    ensures t == "TR" + DecimalString(mode.Value())
  {
    TRIGGERLEVELMODES_LIST[mode.Value()]
  }

  /** `TRIGGERSLOPES_A_LIST[slope.value]` for channel A, `TRIGGERSLOPES_B_LIST[slope.value]` for B. */
  function TriggerSlopeCommand(ch: Channel, slope: TriggerSlope): (t: string)
    ensures t == SlopeMnemonic(ch) + DecimalString(slope.Value())
  {
    match ch
    case A => TRIGGERSLOPES_A_LIST[slope.Value()]
    case B => TRIGGERSLOPES_B_LIST[slope.Value()]
  }

  /** `GATEMODES_LIST[mode.value]`; no operation of the driver writes it. */
  function GateModeCommand(mode: GateMode): (t: string)
    ensures t == "GA" + DecimalString(mode.Value())
  {
    GATEMODES_LIST[mode.Value()]
  }

  /** `MEASMODES_LIST[mode.value]` */
  function MeasModeCommand(mode: MeasMode): (t: string)
    ensures t == "FN" + DecimalString(mode.Value())
  {
    MEASMODES_LIST[mode.Value()]
  }

  lemma TriggerLevelModeCommandInjective(m: TriggerLevelMode, n: TriggerLevelMode)
    ensures TriggerLevelModeCommand(m) == TriggerLevelModeCommand(n) <==> m == n
  {
    PrefixedDecimalInjective("TR", m.Value(), n.Value());
  }

  lemma TriggerSlopeCommandInjective(ch: Channel, s: TriggerSlope, dh: Channel, t: TriggerSlope)
    ensures TriggerSlopeCommand(ch, s) == TriggerSlopeCommand(dh, t) <==> ch == dh && s == t
  {
    if TriggerSlopeCommand(ch, s) == TriggerSlopeCommand(dh, t) {
      assert TriggerSlopeCommand(ch, s)[0] == TriggerSlopeCommand(dh, t)[0];
      PrefixedDecimalInjective(SlopeMnemonic(ch), s.Value(), t.Value());
    }
  }

  lemma GateModeCommandInjective(m: GateMode, n: GateMode)
    ensures GateModeCommand(m) == GateModeCommand(n) <==> m == n
  {
    PrefixedDecimalInjective("GA", m.Value(), n.Value());
  }

  lemma MeasModeCommandInjective(m: MeasMode, n: MeasMode)
    ensures MeasModeCommand(m) == MeasModeCommand(n) <==> m == n
  {
    PrefixedDecimalInjective("FN", m.Value(), n.Value());
  }

  /** The two input channels of the counter. */
  datatype Channel = A | B

  /** One write to the instrument. A `Level` command goes over the bus as `AT` or
      `BT` followed by the level with its sign and two decimals; that text is not
      modelled. */
  datatype Command =
    | Token(text: string)
    | Level(channel: Channel, level: real)

  /** A setting of the instrument that one command changes. */
  datatype Setting =
    | MeasModeIs(measMode: MeasMode)
    | TriggerLevelModeIs(levelMode: TriggerLevelMode)
    | TriggerSlopeIs(slopeChannel: Channel, slope: TriggerSlope)
    | TriggerLevelIs(levelChannel: Channel, level: real)
    | GateModeIs(gateMode: GateMode)
  {
    function Kind(): SettingKind
    {
      match this
      case MeasModeIs(_) => MeasModeKind
      case TriggerLevelModeIs(_) => TriggerLevelModeKind
      case TriggerSlopeIs(ch, _) => TriggerSlopeKind(ch)
      case TriggerLevelIs(ch, _) => TriggerLevelKind(ch)
      case GateModeIs(_) => GateModeKind
    }
  }

  /** Which of the instrument's settings a command changes. */
  datatype SettingKind =
    | MeasModeKind | TriggerLevelModeKind | TriggerSlopeKind(Channel)
    | TriggerLevelKind(Channel) | GateModeKind

  /** The command a setter writes for a setting: the table entry, or the level command. */
  function Encode(s: Setting): (c: Command)
    ensures c.Level? <==> s.TriggerLevelIs?
  {
    match s
    case MeasModeIs(m) => Token(MeasModeCommand(m))
    case TriggerLevelModeIs(m) => Token(TriggerLevelModeCommand(m))
    case TriggerSlopeIs(ch, slope) => Token(TriggerSlopeCommand(ch, slope))
    case TriggerLevelIs(ch, level) => Level(ch, level)
    case GateModeIs(m) => Token(GateModeCommand(m))
  }

  predicate AllDigits(s: string)
  {
    forall k :: 0 <= k < |s| ==> '0' <= s[k] <= '9'
  }

  /** The model's assumed reading of a command by the instrument (the driver
      does not state it): a level command sets its channel's trigger level; a
      token of a two-letter table mnemonic followed by a decimal index into that
      table sets the matching enumeration member. Anything else (`RE`, `IN`,
      `WA1`) is taken to change none of these settings. */
  function SettingOf(c: Command): Option<Setting>
  {
    match c
    case Level(ch, level) => Some(TriggerLevelIs(ch, level))
    case Token(t) =>
      if |t| < 3 || !AllDigits(t[2..]) then None
      else
        var mnemonic, n := t[..2], DecimalValue(t[2..]);
        if mnemonic == "FN" && n < |MEAS_MODES| then Some(MeasModeIs(MEAS_MODES[n]))
        else if mnemonic == "TR" && n < |TRIGGER_LEVEL_MODES| then Some(TriggerLevelModeIs(TRIGGER_LEVEL_MODES[n]))
        else if mnemonic == "AS" && n < |TRIGGER_SLOPES| then Some(TriggerSlopeIs(A, TRIGGER_SLOPES[n]))
        else if mnemonic == "BS" && n < |TRIGGER_SLOPES| then Some(TriggerSlopeIs(B, TRIGGER_SLOPES[n]))
        else if mnemonic == "GA" && n < |GATE_MODES| then Some(GateModeIs(GATE_MODES[n]))
        else None
  }

  /** The token `mnemonic + str(i)` splits back into the mnemonic and `i`. */
  lemma SplitPrefixedDecimal(mnemonic: string, i: nat)
    requires |mnemonic| == 2
    ensures var t := mnemonic + DecimalString(i);
      |t| >= 3 && t[..2] == mnemonic && AllDigits(t[2..]) && DecimalValue(t[2..]) == i
  {
    var t := mnemonic + DecimalString(i);
    assert t[..2] == mnemonic;
    assert t[2..] == DecimalString(i);
    DecimalRoundTrip(i);
  }

  /** The instrument reads `FN<v>` as the measurement function of value `v`. */
  lemma ReadMeasModeCommand(m: MeasMode)
    ensures SettingOf(Token(MeasModeCommand(m))) == Some(MeasModeIs(m))
  {
    SplitPrefixedDecimal("FN", m.Value());
  }

  /** The instrument reads `TR<v>` as the trigger-level mode of value `v`. */
  lemma ReadTriggerLevelModeCommand(m: TriggerLevelMode)
    ensures SettingOf(Token(TriggerLevelModeCommand(m))) == Some(TriggerLevelModeIs(m))
  {
    SplitPrefixedDecimal("TR", m.Value());
  }

  /** The instrument reads `AS<v>` and `BS<v>` as the slope of value `v` on channel A and B. */
  lemma ReadTriggerSlopeCommand(ch: Channel, slope: TriggerSlope)
    ensures SettingOf(Token(TriggerSlopeCommand(ch, slope))) == Some(TriggerSlopeIs(ch, slope))
  {
    SplitPrefixedDecimal(SlopeMnemonic(ch), slope.Value());
  }

  /** The instrument reads `GA<v>` as the gate mode of value `v`. */
  lemma ReadGateModeCommand(m: GateMode)
    ensures SettingOf(Token(GateModeCommand(m))) == Some(GateModeIs(m))
  {
    SplitPrefixedDecimal("GA", m.Value());
  }

  /** The instrument reads back from a command exactly the setting it was written for. */
  lemma SettingOfEncode(s: Setting)
    ensures SettingOf(Encode(s)) == Some(s)
  {
    match s
    case MeasModeIs(m) => ReadMeasModeCommand(m);
    case TriggerLevelModeIs(m) => ReadTriggerLevelModeCommand(m);
    case TriggerSlopeIs(ch, slope) => ReadTriggerSlopeCommand(ch, slope);
    case TriggerLevelIs(_, _) =>
    case GateModeIs(m) => ReadGateModeCommand(m);
  }

  /** Distinct settings are written as distinct commands. */
  lemma EncodeInjective(s: Setting, t: Setting)
    ensures Encode(s) == Encode(t) <==> s == t
  {
    SettingOfEncode(s);
    SettingOfEncode(t);
  }

  /** A bare command whose first letter starts no table mnemonic changes no
      setting: `RE`, `IN` and `WA1` among them. */
  lemma BareTokenSetsNothing(t: string)
    requires |t| > 0 && t[0] !in "FTABG"
    ensures SettingOf(Token(t)) == None
  {
    if |t| >= 3 {
      assert t[..2][0] == t[0];
    }
  }
}
