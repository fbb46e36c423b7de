/** The driver object `HP5316X`. The instrument is abstracted as the log of the
    commands written to it, and the driver keeps a mirror of the settings those
    commands made. */
module Driver {

  import opened Wrappers
  import opened Commands
  import opened Decoder

  /** The last setting of kind `k` among the commands of `log`: what the
      instrument was last told for that setting, if anything. */
  ghost function LastSetting(log: seq<Command>, k: SettingKind): (r: Option<Setting>)
    ensures r.Some? ==> r.value.Kind() == k
    decreases |log|
  {
    if log == [] then None
    else
      var c := log[|log| - 1];
      if SettingOf(c).Some? && SettingOf(c).value.Kind() == k then SettingOf(c)
      else LastSetting(log[..|log| - 1], k)
  }

  lemma LastSettingAppend(log: seq<Command>, c: Command, k: SettingKind)
    ensures LastSetting(log + [c], k)
      == if SettingOf(c).Some? && SettingOf(c).value.Kind() == k then SettingOf(c) else LastSetting(log, k)
  {
    assert (log + [c])[..|log|] == log;
  }

  /** Writing the command for `s` makes `s` the last setting of its kind and
      leaves every other kind as it was. */
  lemma WriteSetting(log: seq<Command>, s: Setting, k: SettingKind)
    ensures LastSetting(log + [Encode(s)], k) == if s.Kind() == k then Some(s) else LastSetting(log, k)
  {
    SettingOfEncode(s);
    LastSettingAppend(log, Encode(s), k);
  }

  /** Writing a bare command such as `RE`, `IN` or `WA1` changes no setting. */
  lemma WriteBareToken(log: seq<Command>, t: string, k: SettingKind)
    requires |t| > 0 && t[0] !in "FTABG"
    ensures LastSetting(log + [Token(t)], k) == LastSetting(log, k)
  {
    BareTokenSetsNothing(t);
    LastSettingAppend(log, Token(t), k);
  }

  /** The range the trigger-level setters accept, in volts. */
  predicate LevelInRange(level: real)
  {
    -2.5 <= level <= 2.5
  }

  /** The settings the driver object mirrors. */
  datatype Mirror = Mirror(
    measMode: MeasMode,
    triggerLevelMode: TriggerLevelMode,
    triggerSlopeA: TriggerSlope,
    triggerSlopeB: TriggerSlope,
    triggerLevelA: real,
    triggerLevelB: real,
    gateMode: GateMode,
    timeout: int)

  /** The settings `_init_settings` establishes. */
  const DEFAULT_MIRROR := Mirror(FreqA, FrontControl, Positive, Positive, 0.0, 0.0, LongFront, 2)

  /** The mirror after a setter stores `s`. */
  function Apply(m: Mirror, s: Setting): (m': Mirror)
    ensures m'.timeout == m.timeout
  {
    match s
    case MeasModeIs(mode) => m.(measMode := mode)
    case TriggerLevelModeIs(mode) => m.(triggerLevelMode := mode)
    case TriggerSlopeIs(ch, slope) => if ch == A then m.(triggerSlopeA := slope) else m.(triggerSlopeB := slope)
    case TriggerLevelIs(ch, level) => if ch == A then m.(triggerLevelA := level) else m.(triggerLevelB := level)
    case GateModeIs(mode) => m.(gateMode := mode)
  }

  /** The instrument agrees with mirror `m` after the commands of `log`: each
      mirrored setting is the last one of its kind in the log, and no gate-mode
      command is in it. */
  ghost predicate Agrees(log: seq<Command>, m: Mirror)
  {
    && LastSetting(log, MeasModeKind) == Some(MeasModeIs(m.measMode))
    && LastSetting(log, TriggerLevelModeKind) == Some(TriggerLevelModeIs(m.triggerLevelMode))
    && LastSetting(log, TriggerSlopeKind(A)) == Some(TriggerSlopeIs(A, m.triggerSlopeA))
    && LastSetting(log, TriggerSlopeKind(B)) == Some(TriggerSlopeIs(B, m.triggerSlopeB))
    && LastSetting(log, TriggerLevelKind(A)) == Some(TriggerLevelIs(A, m.triggerLevelA))
    && LastSetting(log, TriggerLevelKind(B)) == Some(TriggerLevelIs(B, m.triggerLevelB))
    && LastSetting(log, GateModeKind) == None
  }

  /** A setter that stores `s` and writes its command keeps instrument and mirror in agreement. */
  lemma AgreesAfterWrite(log: seq<Command>, m: Mirror, s: Setting)
    requires Agrees(log, m) && !s.GateModeIs?
    ensures Agrees(log + [Encode(s)], Apply(m, s))
  {
    WriteSetting(log, s, MeasModeKind);
    WriteSetting(log, s, TriggerLevelModeKind);
    WriteSetting(log, s, TriggerSlopeKind(A));
    WriteSetting(log, s, TriggerSlopeKind(B));
    WriteSetting(log, s, TriggerLevelKind(A));
    WriteSetting(log, s, TriggerLevelKind(B));
    WriteSetting(log, s, GateModeKind);
  }

  /** Bare commands (`RE`, `IN`) leave instrument and mirror in agreement. */
  lemma AgreesAfterBareToken(log: seq<Command>, m: Mirror, t: string)
    requires Agrees(log, m) && |t| > 0 && t[0] !in "FTABG"
    ensures Agrees(log + [Token(t)], m)
  {
    WriteBareToken(log, t, MeasModeKind);
    WriteBareToken(log, t, TriggerLevelModeKind);
    WriteBareToken(log, t, TriggerSlopeKind(A));
    WriteBareToken(log, t, TriggerSlopeKind(B));
    WriteBareToken(log, t, TriggerLevelKind(A));
    WriteBareToken(log, t, TriggerLevelKind(B));
    WriteBareToken(log, t, GateModeKind);
  }

  /** The commands `_init_settings` writes, in order: single wait mode, then the
      command of each default setting. */
  const INIT_SEQUENCE: seq<Command> :=
    [Token("WA1"), Encode(MeasModeIs(FreqA)), Encode(TriggerLevelModeIs(FrontControl)),
     Encode(TriggerSlopeIs(A, Positive)), Encode(TriggerSlopeIs(B, Positive)),
     Encode(TriggerLevelIs(A, 0.0)), Encode(TriggerLevelIs(B, 0.0))]

  /** Seven single writes in a row append the seven commands in order. */
  lemma AppendSeven(log: seq<Command>, c1: Command, c2: Command, c3: Command, c4: Command,
                    c5: Command, c6: Command, c7: Command)
    ensures log + [c1] + [c2] + [c3] + [c4] + [c5] + [c6] + [c7] == log + [c1, c2, c3, c4, c5, c6, c7]
  {
  }

  /** The text of INIT_SEQUENCE: `WA1 FN1 TR0 AS0 BS0 AT+0.00 BT+0.00`. */
  lemma InitSequenceText()
    ensures INIT_SEQUENCE ==
      [Token("WA1"), Token("FN1"), Token("TR0"), Token("AS0"), Token("BS0"), Level(A, 0.0), Level(B, 0.0)]
  {
  }

  /** The last setting of a kind after `log + tail` is the last one in `tail`
      if `tail` has one, and otherwise the last one in `log`. */
  lemma {:induction false} LastSettingConcat(log: seq<Command>, tail: seq<Command>, k: SettingKind)
    ensures LastSetting(log + tail, k) == if LastSetting(tail, k).Some? then LastSetting(tail, k) else LastSetting(log, k)
    decreases |tail|
  {
    if tail == [] {
      assert log + tail == log;
    } else {
      var init, last := tail[..|tail| - 1], tail[|tail| - 1];
      assert tail == init + [last];
      assert log + tail == (log + init) + [last];
      LastSettingConcat(log, init, k);
      LastSettingAppend(log + init, last, k);
      LastSettingAppend(init, last, k);
    }
  }

  /** On its own, INIT_SEQUENCE sets every mirrored setting to its default and
      writes no gate mode. */
  lemma InitSequenceLast()
    ensures LastSetting(INIT_SEQUENCE, MeasModeKind) == Some(MeasModeIs(FreqA))
    ensures LastSetting(INIT_SEQUENCE, TriggerLevelModeKind) == Some(TriggerLevelModeIs(FrontControl))
    ensures LastSetting(INIT_SEQUENCE, TriggerSlopeKind(A)) == Some(TriggerSlopeIs(A, Positive))
    ensures LastSetting(INIT_SEQUENCE, TriggerSlopeKind(B)) == Some(TriggerSlopeIs(B, Positive))
    ensures LastSetting(INIT_SEQUENCE, TriggerLevelKind(A)) == Some(TriggerLevelIs(A, 0.0))
    ensures LastSetting(INIT_SEQUENCE, TriggerLevelKind(B)) == Some(TriggerLevelIs(B, 0.0))
    ensures LastSetting(INIT_SEQUENCE, GateModeKind) == None
  {
    var l1 := [] + [Token("WA1")];
    var l2 := l1 + [Encode(MeasModeIs(FreqA))];
    var l3 := l2 + [Encode(TriggerLevelModeIs(FrontControl))];
    var l4 := l3 + [Encode(TriggerSlopeIs(A, Positive))];
    var l5 := l4 + [Encode(TriggerSlopeIs(B, Positive))];
    var l6 := l5 + [Encode(TriggerLevelIs(A, 0.0))];
    var l7 := l6 + [Encode(TriggerLevelIs(B, 0.0))];
    assert l7 == INIT_SEQUENCE;
    forall k
      ensures LastSetting(l7, k) ==
        match k
        case MeasModeKind => Some(MeasModeIs(FreqA))
        case TriggerLevelModeKind => Some(TriggerLevelModeIs(FrontControl))
        case TriggerSlopeKind(ch) => Some(TriggerSlopeIs(ch, Positive))
        case TriggerLevelKind(ch) => Some(TriggerLevelIs(ch, 0.0))
        case GateModeKind => None
    {
      WriteBareToken([], "WA1", k);
      WriteSetting(l1, MeasModeIs(FreqA), k);
      WriteSetting(l2, TriggerLevelModeIs(FrontControl), k);
      WriteSetting(l3, TriggerSlopeIs(A, Positive), k);
      WriteSetting(l4, TriggerSlopeIs(B, Positive), k);
      WriteSetting(l5, TriggerLevelIs(A, 0.0), k);
      WriteSetting(l6, TriggerLevelIs(B, 0.0), k);
    }
  }

  /** After INIT_SEQUENCE the instrument agrees with the default mirror, provided
      no gate-mode command was written before it. */
  lemma AgreesAfterInit(log: seq<Command>)
    requires LastSetting(log, GateModeKind) == None
    ensures Agrees(log + INIT_SEQUENCE, DEFAULT_MIRROR)
  {
    InitSequenceLast();
    LastSettingConcat(log, INIT_SEQUENCE, MeasModeKind);
    LastSettingConcat(log, INIT_SEQUENCE, TriggerLevelModeKind);
    LastSettingConcat(log, INIT_SEQUENCE, TriggerSlopeKind(A));
    LastSettingConcat(log, INIT_SEQUENCE, TriggerSlopeKind(B));
    LastSettingConcat(log, INIT_SEQUENCE, TriggerLevelKind(A));
    LastSettingConcat(log, INIT_SEQUENCE, TriggerLevelKind(B));
    LastSettingConcat(log, INIT_SEQUENCE, GateModeKind);
  }

  /** `HP5316X`: the driver object. */
  class HP5316X {
    /** Every command written to the instrument (`self._inst.write`), oldest first. */
    var log: seq<Command>
    /** The instrument resource's timeout, `self._inst.timeout`. */
    var instrumentTimeout: int

    // The mirrored settings: `_timeout`, `_measmode`, `_triggerlevelmode`,
    // `_triggerslope_A`, `_triggerslope_B`, `_triggerlevel_A`, `_triggerlevel_B`.
    var timeout: int
    var measMode: MeasMode
    var triggerLevelMode: TriggerLevelMode
    var triggerSlopeA: TriggerSlope
    var triggerSlopeB: TriggerSlope
    var triggerLevelA: real
    var triggerLevelB: real
    /** The plain attribute `gatemode`. The class defines no property of that name,
        so storing it writes nothing to the instrument. */
    var gateMode: GateMode

    ghost function Settings(): Mirror
      reads this
    {
      Mirror(measMode, triggerLevelMode, triggerSlopeA, triggerSlopeB,
             triggerLevelA, triggerLevelB, gateMode, timeout)
    }

    /** The mirror agrees with the instrument: each mirrored setting is the last
        one of its kind written to it, no gate-mode command was ever written, the
        trigger levels are in range and the resource's timeout is the mirrored one. */
    ghost predicate Valid()
      reads this
    {
      && Agrees(log, Settings())
      && LevelInRange(triggerLevelA) && LevelInRange(triggerLevelB)
      && instrumentTimeout == timeout
    }

    /** `HP5316X(address)`: opens the resource (not modelled) and pushes the defaults. */
    constructor ()
      ensures Valid()
      ensures log == INIT_SEQUENCE
      ensures Settings() == DEFAULT_MIRROR && instrumentTimeout == 2
    {
      log := [];
      new;
      InitSettings();
    }

    /** `self._inst.write(command)` */
    method Write(c: Command)
      modifies this`log
      ensures log == old(log) + [c]
    {
      log := log + [c];
    }

    /** `_init_settings`: single wait mode, then the default of every setting. The
        mirror then agrees with the instrument unless a gate-mode command was
        written before. */
    method InitSettings()
      modifies this
      ensures log == old(log) + INIT_SEQUENCE
      ensures Settings() == DEFAULT_MIRROR && instrumentTimeout == 2
      ensures LastSetting(old(log), GateModeKind) == None ==> Valid()
    {
      ghost var before := log;
      Write(Token("WA1"));
      gateMode := LongFront;
      SetMeasMode(FreqA);
      SetTriggerLevelMode(FrontControl);
      SetTriggerSlopeA(Positive);
      SetTriggerSlopeB(Positive);
      var levelA := SetTriggerLevelA(0.0);
      var levelB := SetTriggerLevelB(0.0);
      SetTimeout(2);
      AppendSeven(before, INIT_SEQUENCE[0], INIT_SEQUENCE[1], INIT_SEQUENCE[2], INIT_SEQUENCE[3],
                  INIT_SEQUENCE[4], INIT_SEQUENCE[5], INIT_SEQUENCE[6]);
      if LastSetting(before, GateModeKind) == None {
        AgreesAfterInit(before);
      }
    }

    /** `reset`: a soft reset; the mirror is kept. */
    method Reset()
      modifies this
      ensures log == old(log) + [Token("RE")]
      ensures Settings() == old(Settings()) && instrumentTimeout == old(instrumentTimeout)
      ensures old(Valid()) ==> Valid()
    {
      Write(Token("RE"));
      if old(Valid()) { AgreesAfterBareToken(old(log), old(Settings()), "RE"); }
    }

    /** `initialize`: initializes the instrument, then pushes the defaults again. */
    method Initialize()
      modifies this
      ensures log == old(log) + [Token("IN")] + INIT_SEQUENCE
      ensures Settings() == DEFAULT_MIRROR && instrumentTimeout == 2
      ensures old(Valid()) ==> Valid()
    {
      Write(Token("IN"));
      if old(Valid()) { AgreesAfterBareToken(old(log), old(Settings()), "IN"); }
      InitSettings();
    }

    /** The `timeout` setter: the driver and the resource take the same value;
        nothing is written. */
    method SetTimeout(t: int)
      modifies this
      ensures Settings() == old(Settings()).(timeout := t) && instrumentTimeout == t
      ensures log == old(log)
      ensures old(Valid()) ==> Valid()
    {
      timeout := t;
      instrumentTimeout := t;
    }

    /** The `timeout` getter. */
    method GetTimeout() returns (t: int)
      requires Valid()
      ensures t == timeout && t == instrumentTimeout
    {
      t := timeout;
    }

    /** The `triggerlevelmode` setter. */
    method SetTriggerLevelMode(mode: TriggerLevelMode)
      modifies this
      ensures Settings() == old(Settings()).(triggerLevelMode := mode)
      ensures instrumentTimeout == old(instrumentTimeout)
      ensures log == old(log) + [Token(TriggerLevelModeCommand(mode))]
      ensures old(Valid()) ==> Valid()
    {
      triggerLevelMode := mode;
      Write(Token(TriggerLevelModeCommand(mode)));
      if old(Valid()) { AgreesAfterWrite(old(log), old(Settings()), TriggerLevelModeIs(mode)); }
    }

    /** The `triggerlevelmode` getter: the mode the instrument was last told. */
    method GetTriggerLevelMode() returns (mode: TriggerLevelMode)
      requires Valid()
      ensures mode == triggerLevelMode
      ensures LastSetting(log, TriggerLevelModeKind) == Some(TriggerLevelModeIs(mode))
    {
      mode := triggerLevelMode;
    }

    /** The `triggerslope_a` setter. */
    method SetTriggerSlopeA(slope: TriggerSlope)
      modifies this
      ensures Settings() == old(Settings()).(triggerSlopeA := slope)
      ensures instrumentTimeout == old(instrumentTimeout)
      ensures log == old(log) + [Token(TriggerSlopeCommand(A, slope))]
      ensures old(Valid()) ==> Valid()
    {
      triggerSlopeA := slope;
      Write(Token(TriggerSlopeCommand(A, slope)));
      if old(Valid()) { AgreesAfterWrite(old(log), old(Settings()), TriggerSlopeIs(A, slope)); }
    }

    /** The `triggerslope_a` getter: the slope channel A was last set to. */
    method GetTriggerSlopeA() returns (slope: TriggerSlope)
      requires Valid()
      ensures slope == triggerSlopeA
      ensures LastSetting(log, TriggerSlopeKind(A)) == Some(TriggerSlopeIs(A, slope))
    {
      slope := triggerSlopeA;
    }

    /** The `triggerslope_b` setter. */
    method SetTriggerSlopeB(slope: TriggerSlope)
      modifies this
      ensures Settings() == old(Settings()).(triggerSlopeB := slope)
      ensures instrumentTimeout == old(instrumentTimeout)
      ensures log == old(log) + [Token(TriggerSlopeCommand(B, slope))]
      ensures old(Valid()) ==> Valid()
    {
      triggerSlopeB := slope;
      Write(Token(TriggerSlopeCommand(B, slope)));
      if old(Valid()) { AgreesAfterWrite(old(log), old(Settings()), TriggerSlopeIs(B, slope)); }
    }

    /** The `triggerslope_b` getter: the slope channel B was last set to. */
    method GetTriggerSlopeB() returns (slope: TriggerSlope)
      requires Valid()
      ensures slope == triggerSlopeB
      ensures LastSetting(log, TriggerSlopeKind(B)) == Some(TriggerSlopeIs(B, slope))
    {
      slope := triggerSlopeB;
    }

    /** The `triggerlevel_a` setter: a level outside [-2.5, 2.5] raises ValueError
        and changes nothing; otherwise it is stored and written as `AT<level>`. */
    method SetTriggerLevelA(level: real) returns (r: Outcome<Error>)
      modifies this
      ensures r.Fail? <==> !LevelInRange(level)
      ensures r.Fail? ==> r.error.ValueError? && log == old(log) && Settings() == old(Settings())
      ensures r.Pass? ==> Settings() == old(Settings()).(triggerLevelA := level)
      ensures r.Pass? ==> log == old(log) + [Level(A, level)]
      ensures instrumentTimeout == old(instrumentTimeout)
      ensures old(Valid()) ==> Valid()
    {
      if level < -2.5 || level > 2.5 {
        return Fail(ValueError("level must be between -2.5 and 2.5"));
      }
      triggerLevelA := level;
      Write(Level(A, level));
      if old(Valid()) { AgreesAfterWrite(old(log), old(Settings()), TriggerLevelIs(A, level)); }
      r := Pass;
    }

    /** The `triggerlevel_a` getter as written: it reads `self.triggerlevel_A`, an
        attribute nothing assigns (the setter stores `_triggerlevel_A`), so it
        always raises AttributeError. */
    method GetTriggerLevelAAsWritten() returns (r: Result<real, Error>)
      ensures r == Failure(AttributeError("triggerlevel_A"))
    {
      r := Failure(AttributeError("triggerlevel_A"));
    }

    /** The `triggerlevel_a` getter as intended: the level channel A was last set to. */
    method GetTriggerLevelA() returns (level: real)
      requires Valid()
      ensures level == triggerLevelA && LevelInRange(level)
      ensures LastSetting(log, TriggerLevelKind(A)) == Some(TriggerLevelIs(A, level))
    {
      level := triggerLevelA;
    }

    /** The `triggerlevel_b` setter: a level outside [-2.5, 2.5] raises ValueError
        and changes nothing; otherwise it is stored and written as `BT<level>`. */
    method SetTriggerLevelB(level: real) returns (r: Outcome<Error>)
      modifies this
      ensures r.Fail? <==> !LevelInRange(level)
      ensures r.Fail? ==> r.error.ValueError? && log == old(log) && Settings() == old(Settings())
      ensures r.Pass? ==> Settings() == old(Settings()).(triggerLevelB := level)
      ensures r.Pass? ==> log == old(log) + [Level(B, level)]
      ensures instrumentTimeout == old(instrumentTimeout)
      ensures old(Valid()) ==> Valid()
    {
      if level < -2.5 || level > 2.5 {
        return Fail(ValueError("level must be between -2.5 and 2.5"));
      }
      triggerLevelB := level;
      Write(Level(B, level));
      if old(Valid()) { AgreesAfterWrite(old(log), old(Settings()), TriggerLevelIs(B, level)); }
      r := Pass;
    }

    /** The `triggerlevel_b` getter as written: it reads `self.triggerlevel_B`, an
        attribute nothing assigns, so it always raises AttributeError. */
    method GetTriggerLevelBAsWritten() returns (r: Result<real, Error>)
      ensures r == Failure(AttributeError("triggerlevel_B"))
    {
      r := Failure(AttributeError("triggerlevel_B"));
    }

    /** The `triggerlevel_b` getter as intended: the level channel B was last set to. */
    method GetTriggerLevelB() returns (level: real)
      requires Valid()
      ensures level == triggerLevelB && LevelInRange(level)
      ensures LastSetting(log, TriggerLevelKind(B)) == Some(TriggerLevelIs(B, level))
    {
      level := triggerLevelB;
    }

    /** The `measmode` setter (defined twice in the class, identically). */
    method SetMeasMode(mode: MeasMode)
      modifies this
      ensures Settings() == old(Settings()).(measMode := mode)
      ensures instrumentTimeout == old(instrumentTimeout)
      ensures log == old(log) + [Token(MeasModeCommand(mode))]
      ensures old(Valid()) ==> Valid()
    {
      measMode := mode;
      Write(Token(MeasModeCommand(mode)));
      if old(Valid()) { AgreesAfterWrite(old(log), old(Settings()), MeasModeIs(mode)); }
    }

    /** The `measmode` getter: the measurement function the instrument was last told. */
    method GetMeasMode() returns (mode: MeasMode)
      requires Valid()
      ensures mode == measMode
      ensures LastSetting(log, MeasModeKind) == Some(MeasModeIs(mode))
    {
      mode := measMode;
    }

    /** `get_measurement`: `reply` is the outcome of the blocking read, `None` when
        it raised. A failed read gives no measurement; a reply is decoded, and a
        decoding error propagates. */
    method GetMeasurement(reply: Option<string>, parseFloat: string -> Option<real>)
      returns (r: Result<Option<Measurement>, Error>)
      ensures r == Success(None) <==> reply.None?
      ensures reply.Some? ==> (r.Success? <==> Decode(reply.value, parseFloat).Success?)
      ensures reply.Some? && r.Success? ==> r.value == Some(Decode(reply.value, parseFloat).value)
      ensures r.Failure? ==> reply.Some? && Decode(reply.value, parseFloat) == Failure(r.error)
    {
      match reply
      case None =>
        return Success(None);
      case Some(rawdata) =>
        match Decode(rawdata, parseFloat)
        case Success(m) =>
          return Success(Some(m));
        case Failure(e) =>
          return Failure(e);
    }
  }
}
