/**
 * The receiver's command vocabulary: every operation of the Pioneer client
 * as a value, the token the client sends for it (Token), and the reading of
 * a token back into the operation it stands for (Parse). Token is the single
 * definition of the wire vocabulary; Parse inverts it exactly, so no two
 * operations share a token.
 */
module PioneerCommands {
  import opened Options
  import opened Decimal

  /** The receiver's raw volume scale. */
  type Level = n: int | 0 <= n <= 185

  datatype DialogMode = DialogOff | Flat | Up1 | Up2 | Up3 | Up4
  datatype PqlsMode = PqlsOff | Auto
  datatype OnOff = Off | On
  datatype ToneMode = Bypass | ToneOn

  datatype Command =
    | Power(on: bool)                       // powerOn / powerOff
    | VolumeStep(up: bool)                  // one step of volumeUp / volumeDown
    | Muting(muted: bool)                   // mute / unMute
    | InputStep(next: bool)                 // inputNext / inputPrev
    | BassStep(raise: bool)                 // baseUp / baseDown
    | TrebleStep(lift: bool)                // trebleUp / trebleDown
    | SetLevel(level: Level)                // setVolume, once scaled
    | SelectInput(code: string)             // setInput, with the input's code
    | DialogEnhancement(dialog: DialogMode) // setDialogEnhancementMode
    | Pqls(pqls: PqlsMode)                  // setPQLSmode
    | Eq(eq: OnOff)                         // seEQMode
    | StandingWave(wave: OnOff)             // setStandingWaveMode
    | PhaseControl(phase: OnOff)            // setPhaseControlMode
    | ToneControl(tone: ToneMode)           // setToneMode
    | AutoSoundRetriever(retriever: OnOff)  // setAutoSoundRetrieverMode
    | DigitalNoiseReduction(noise: OnOff)   // setDigitalNoiseReductionMode

  /** The dialog-enhancement table: each mode's number on the wire. */
  function DialogDigit(mode: DialogMode): (d: nat)
    ensures d <= 5
  {
    match mode
    case DialogOff => 0
    case Flat => 1
    case Up1 => 2
    case Up2 => 3
    case Up3 => 4
    case Up4 => 5
  }

  /** The mode a dialog-enhancement digit selects, if any. */
  function DialogModeOf(c: char): (r: Option<DialogMode>)
    ensures r.Some? <==> '0' <= c <= '5'
    ensures r.Some? ==> DecimalString(DialogDigit(r.value)) == [c]
  {
    if c == '0' then Some(DialogOff)
    else if c == '1' then Some(Flat)
    else if c == '2' then Some(Up1)
    else if c == '3' then Some(Up2)
    else if c == '4' then Some(Up3)
    else if c == '5' then Some(Up4)
    else None
  }

  /** The leading flag of a two-state mode setter: "1" when switched on. */
  function Flag(on: bool): (f: string)
    ensures |f| == 1 && IsDigit(f[0])
    ensures f[0] == '1' <==> on
    ensures f[0] == '0' <==> !on
  {
    if on then "1" else "0"
  }

  /**
   * The token the client sends for a command. Only an input selection ends
   * in 'N' (its "FN" suffix), and every other token is two to five characters.
   */
  function Token(c: Command): (t: string)
    ensures |t| >= 2
    ensures t[|t| - 1] == 'N' <==> c.SelectInput?
    ensures !c.SelectInput? ==> |t| <= 5
  {
    match c
    case Power(on) => if on then "PO" else "PF"
    case VolumeStep(up) => if up then "VU" else "VD"
    case Muting(muted) => if muted then "MO" else "MF"
    case InputStep(next) => if next then "FU" else "FD"
    case BassStep(raise) => if raise then "BI" else "BD"
    case TrebleStep(lift) => if lift then "TI" else "TD"
    case SetLevel(level) => ThreeDigits(level) + "VL"
    case SelectInput(code) => code + "FN"
    case DialogEnhancement(mode) => DecimalString(DialogDigit(mode)) + "ATH"
    case Pqls(mode) => Flag(mode == Auto) + "PQ"
    case Eq(mode) => Flag(mode == On) + "ATC"
    case StandingWave(mode) => Flag(mode == On) + "ATD"
    case PhaseControl(mode) => Flag(mode == On) + "IS"
    case ToneControl(mode) => Flag(mode == ToneOn) + "TO"
    case AutoSoundRetriever(mode) => Flag(mode == On) + "ATA"
    case DigitalNoiseReduction(mode) => Flag(mode == On) + "ATG"
  }

  /** The two-letter tokens. */
  function ParseFixed(t: string): Option<Command> {
    if t == "PO" then Some(Power(true))
    else if t == "PF" then Some(Power(false))
    else if t == "VU" then Some(VolumeStep(true))
    else if t == "VD" then Some(VolumeStep(false))
    else if t == "MO" then Some(Muting(true))
    else if t == "MF" then Some(Muting(false))
    else if t == "FU" then Some(InputStep(true))
    else if t == "FD" then Some(InputStep(false))
    else if t == "BI" then Some(BassStep(true))
    else if t == "BD" then Some(BassStep(false))
    else if t == "TI" then Some(TrebleStep(true))
    else if t == "TD" then Some(TrebleStep(false))
    else None
  }

  /** The mode-setter tokens: one leading character, then a fixed suffix. */
  function ParseModeSetter(flag: char, suffix: string): Option<Command> {
    if suffix == "ATH" then
      match DialogModeOf(flag)
      case Some(mode) => Some(DialogEnhancement(mode))
      case None => None
    else if flag != '0' && flag != '1' then None
    else
      var on := flag == '1';
      var onOff := if on then On else Off;
      if suffix == "PQ" then Some(Pqls(if on then Auto else PqlsOff))
      else if suffix == "ATC" then Some(Eq(onOff))
      else if suffix == "ATD" then Some(StandingWave(onOff))
      else if suffix == "IS" then Some(PhaseControl(onOff))
      else if suffix == "TO" then Some(ToneControl(if on then ToneOn else Bypass))
      else if suffix == "ATA" then Some(AutoSoundRetriever(onOff))
      else if suffix == "ATG" then Some(DigitalNoiseReduction(onOff))
      else None
  }

  /** The command a token stands for, or None for text that is no token. */
  function Parse(t: string): Option<Command> {
    var n := |t|;
    if n >= 2 && t[n - 2..] == "FN" then Some(SelectInput(t[..n - 2]))
    else if n == 5 && t[3..] == "VL" && AllDigits(t[..3]) && ParseDecimal(t[..3]) <= 185 then
      Some(SetLevel(ParseDecimal(t[..3])))
    else if n == 2 then ParseFixed(t)
    else if n >= 3 then ParseModeSetter(t[0], t[1..])
    else None
  }

  /** The shape of a volume token: three digits that denote the level, then "VL". */
  lemma VolumeTokenShape(level: Level)
    ensures var t := Token(SetLevel(level));
      && |t| == 5 && AllDigits(t[..3]) && t[3..] == "VL"
      && ParseDecimal(t[..3]) == level
    ensures Token(SetLevel(0)) == "000VL" && Token(SetLevel(185)) == "185VL"
  {
    var t := Token(SetLevel(level));
    assert t[..3] == ThreeDigits(level);
    assert ThreeDigits(0) == "000";
    assert ThreeDigits(185) == "185";
  }

  /** A mode-setter token goes to ParseModeSetter with its flag and suffix. */
  lemma ParseSetterToken(t: string, flag: char, suffix: string)
    requires t == [flag] + suffix && 2 <= |suffix| <= 3 && suffix[|suffix| - 1] != 'N'
    ensures Parse(t) == ParseModeSetter(flag, suffix)
  {
    assert t[|t| - 2..][1] == suffix[|suffix| - 1];
    assert t[0] == flag && t[1..] == suffix;
  }

  /** The two-letter tokens read back as their commands. */
  lemma ParseFixedToken(c: Command)
    requires c.Power? || c.VolumeStep? || c.Muting? || c.InputStep? || c.BassStep? || c.TrebleStep?
    ensures Parse(Token(c)) == Some(c)
  {
    var t := Token(c);
    assert |t| == 2 && t[1] != 'N';
    assert t[0..] == t;
  }

  /** A two-state setter token reads back as the command its flag and suffix select. */
  lemma ParseFlagToken(c: Command, on: bool, suffix: string)
    requires Token(c) == Flag(on) + suffix
    requires 2 <= |suffix| <= 3 && suffix[|suffix| - 1] != 'N'
    requires ParseModeSetter(if on then '1' else '0', suffix) == Some(c)
    ensures Parse(Token(c)) == Some(c)
  {
    ParseSetterToken(Token(c), if on then '1' else '0', suffix);
  }

  /** The two-state mode-setter tokens read back as their commands. */
  lemma ParseSwitchToken(c: Command)
    requires c.Pqls? || c.Eq? || c.StandingWave? || c.PhaseControl? || c.ToneControl?
      || c.AutoSoundRetriever? || c.DigitalNoiseReduction?
    ensures Parse(Token(c)) == Some(c)
  {
    match c
    case Pqls(mode) => ParseFlagToken(c, mode == Auto, "PQ");
    case Eq(mode) => ParseFlagToken(c, mode == On, "ATC");
    case StandingWave(mode) => ParseFlagToken(c, mode == On, "ATD");
    case PhaseControl(mode) => ParseFlagToken(c, mode == On, "IS");
    case ToneControl(mode) => ParseFlagToken(c, mode == ToneOn, "TO");
    case AutoSoundRetriever(mode) => ParseFlagToken(c, mode == On, "ATA");
    case DigitalNoiseReduction(mode) => ParseFlagToken(c, mode == On, "ATG");
  }

  /** An input token reads back as the input's code. */
  lemma ParseInputToken(code: string)
    ensures Parse(Token(SelectInput(code))) == Some(SelectInput(code))
  {
    var t := Token(SelectInput(code));
    assert t[|t| - 2..] == "FN" && t[..|t| - 2] == code;
  }

  /** A volume token reads back as its level. */
  lemma ParseLevelToken(level: Level)
    ensures Parse(Token(SetLevel(level))) == Some(SetLevel(level))
  {
    var t := Token(SetLevel(level));
    VolumeTokenShape(level);
    assert t[|t| - 2..] == t[3..];
  }

  /** A dialog-enhancement token reads back as its mode. */
  lemma ParseDialogToken(mode: DialogMode)
    ensures Parse(Token(DialogEnhancement(mode))) == Some(DialogEnhancement(mode))
  {
    var t := Token(DialogEnhancement(mode));
    var d := DialogDigit(mode);
    assert DecimalString(d) == [DigitChar(d)];
    ParseSetterToken(t, DigitChar(d), "ATH");
  }

  /** Every token reads back as the command it was built from. */
  lemma {:induction false} ParseToken(c: Command)
    ensures Parse(Token(c)) == Some(c)
  {
    match c
    case SelectInput(code) => ParseInputToken(code);
    case SetLevel(level) => ParseLevelToken(level);
    case DialogEnhancement(mode) => ParseDialogToken(mode);
    case Pqls(_) => ParseSwitchToken(c);
    case Eq(_) => ParseSwitchToken(c);
    case StandingWave(_) => ParseSwitchToken(c);
    case PhaseControl(_) => ParseSwitchToken(c);
    case ToneControl(_) => ParseSwitchToken(c);
    case AutoSoundRetriever(_) => ParseSwitchToken(c);
    case DigitalNoiseReduction(_) => ParseSwitchToken(c);
    case Power(_) => ParseFixedToken(c);
    case VolumeStep(_) => ParseFixedToken(c);
    case Muting(_) => ParseFixedToken(c);
    case InputStep(_) => ParseFixedToken(c);
    case BassStep(_) => ParseFixedToken(c);
    case TrebleStep(_) => ParseFixedToken(c);
  }

  /** A two-letter text that parses is the token of its command. */
  lemma TokenOfParseFixed(t: string)
    requires ParseFixed(t).Some?
    ensures Token(ParseFixed(t).value) == t
  {
  }

  /** A mode-setter text that parses is the token of its command. */
  lemma TokenOfParseModeSetter(flag: char, suffix: string)
    requires ParseModeSetter(flag, suffix).Some?
    ensures Token(ParseModeSetter(flag, suffix).value) == [flag] + suffix
  {
    var c := ParseModeSetter(flag, suffix).value;
    if suffix == "ATH" {
      var mode := DialogModeOf(flag).value;
      assert DecimalString(DialogDigit(mode)) == [flag];
    } else {
      var on := flag == '1';
      assert Flag(on) == [flag];
      if suffix == "PQ" {
        assert c == Pqls(if on then Auto else PqlsOff);
      } else if suffix == "ATC" {
        assert c == Eq(if on then On else Off);
      } else if suffix == "ATD" {
        assert c == StandingWave(if on then On else Off);
      } else if suffix == "IS" {
        assert c == PhaseControl(if on then On else Off);
      } else if suffix == "TO" {
        assert c == ToneControl(if on then ToneOn else Bypass);
      } else if suffix == "ATA" {
        assert c == AutoSoundRetriever(if on then On else Off);
      } else {
        assert c == DigitalNoiseReduction(if on then On else Off);
      }
    }
  }

  /** A text that parses is exactly the token of the command it parses to. */
  lemma {:induction false} TokenOfParse(t: string)
    ensures Parse(t).Some? ==> Token(Parse(t).value) == t
  {
    var n := |t|;
    if n >= 2 && t[n - 2..] == "FN" {
      assert t == t[..n - 2] + "FN";
    } else if n == 5 && t[3..] == "VL" && AllDigits(t[..3]) && ParseDecimal(t[..3]) <= 185 {
      ThreeDigitsOfParse(t[..3]);
      assert t == t[..3] + "VL";
    } else if n == 2 {
      if ParseFixed(t).Some? {
        TokenOfParseFixed(t);
      }
    } else if n >= 3 {
      assert Parse(t) == ParseModeSetter(t[0], t[1..]);
      if Parse(t).Some? {
        TokenOfParseModeSetter(t[0], t[1..]);
        assert t == [t[0]] + t[1..];
      }
    }
  }

  /** Parse and Token are inverse: a text parses to c exactly when it is c's token. */
  lemma ParseIffToken(t: string, c: Command)
    ensures Parse(t) == Some(c) <==> Token(c) == t
  {
    ParseToken(c);
    TokenOfParse(t);
  }

  /** No two commands share a token. */
  lemma TokenInjective(c: Command, d: Command)
    ensures Token(c) == Token(d) ==> c == d
  {
    ParseToken(c);
    ParseToken(d);
  }
}
