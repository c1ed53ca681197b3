/**
 * The client for a Pioneer receiver. Each public operation builds one
 * command token and hands it to SendCommand, which fetches the command
 * endpoint with the token appended. The network is modelled by a Transport:
 * whether the n-th request, to a given URL, completes. Every token handed to
 * SendCommand is recorded, in order, in the field `sent`.
 */
module Pioneer {
  import opened Options
  import opened Typings
  import opened Decimal
  import opened PioneerCommands
  import opened Utils

  /** Whether the n-th request of the client, to the given URL, completes. */
  type Transport = (nat, string) -> bool

  /** How one of the client's asynchronous operations settles. */
  datatype Reply =
    | Resolved(text: string)          // fulfilled with a string
    | ReturnedError(message: string)  // fulfilled with an Error object
    | Rejected(message: string)       // rejected with an Error

  const Ack := "ok"
  const ConnectFailure := "Failed to connect to reciever"
  const VolumeRangeMessage := "Volume must be a number between 0 and 100"

  /** A 0 to 100 volume percentage on the receiver's 0 to 185 scale, rounded down. */
  function RawVolume(percent: real): (raw: Level)
    requires 0.0 <= percent <= 100.0
    ensures raw as real <= percent * 185.0 / 100.0 < raw as real + 1.0
    ensures percent == 0.0 ==> raw == 0
    ensures percent == 100.0 ==> raw == 185
  {
    (percent * 185.0 / 100.0).Floor
  }

  /**
   * A percentage set through setVolume reads back through getVol as itself
   * or one less, never more.
   */
  lemma ReadBackAfterSet(percent: int, status: PioneerStatus)
    requires 0 <= percent <= 100
    requires |status.Z| > 0 && status.Z[0].V == RawVolume(percent as real)
    ensures Pioneer.GetVol(status) == Some(percent) || Pioneer.GetVol(status) == Some(percent - 1)
  {
    var raw := RawVolume(percent as real);
    assert raw * 100 <= percent * 185 < raw * 100 + 100;
  }

  /** The read-back loses a percent for some settings: 1% reads back as 0%. */
  lemma ReadBackIsLossy(status: PioneerStatus)
    requires |status.Z| > 0 && status.Z[0].V == RawVolume(1.0)
    ensures Pioneer.GetVol(status) == Some(0)
  {
  }

  /**
   * The receiver moves its raw level by one for each VU or VD token (this
   * premise is the receiver's, not something this model proves). With it,
   * the two step tokens of volumeUp or volumeDown move the level by two,
   * which the decibel scale shows as exactly one decibel.
   */
  lemma TwoStepsAreOneDecibel(level: real)
    ensures VolumeToDB(level + 2.0) == VolumeToDB(level) + 1.0
    ensures VolumeToDB(level - 2.0) == VolumeToDB(level) - 1.0
  {
  }

  class Pioneer {
    const host: string
    const statusEndpoint: string
    const commandEndpoint: string
    /** The table from input name to device code; its entries are not part of this model. */
    const inputNums: Input -> string
    /** Every command handed to SendCommand so far, oldest first. */
    var sent: seq<string>

    /** The endpoints are the receiver's two handlers on `host`. */
    predicate Valid() {
      && statusEndpoint == "http://" + host + "/StatusHandler.asp"
      && commandEndpoint == "http://" + host + "/EventHandler.asp?WebToHostItem="
    }

    constructor (host: string, inputNums: Input -> string)
      ensures Valid()
      ensures this.host == host && this.inputNums == inputNums && sent == []
    {
      this.host := host;
      this.statusEndpoint := "http://" + host + "/StatusHandler.asp";
      this.commandEndpoint := "http://" + host + "/EventHandler.asp?WebToHostItem=";
      this.inputNums := inputNums;
      sent := [];
    }

    /** The URL fetched to deliver a command. */
    function CommandUrl(command: string): (url: string)
      requires Valid()
      ensures url == "http://" + host + "/EventHandler.asp?WebToHostItem=" + command
      ensures |url| > |command| && url[|url| - |command|..] == command
    {
      commandEndpoint + command
    }

    /**
     * One command was issued: it is appended to `sent`, and the reply is "ok"
     * when the transport completes that request, a rejection otherwise.
     */
    twostate predicate Issued(command: string, net: Transport, r: Reply)
      requires Valid()
      reads this
    {
      && sent == old(sent) + [command]
      && r == if net(|old(sent)|, CommandUrl(command)) then Resolved(Ack) else Rejected(ConnectFailure)
    }

    method SendCommand(command: string, net: Transport) returns (r: Reply)
      requires Valid()
      modifies this
      ensures Issued(command, net, r)
    {
      var delivered := net(|sent|, CommandUrl(command));
      sent := sent + [command];
      if delivered {
        r := Resolved(Ack);
      } else {
        r := Rejected(ConnectFailure);
      }
    }

    /** Zone 0's raw volume as a percentage, rounded down; None when there is no zone. */
    static function GetVol(status: PioneerStatus): (r: Option<int>)
      ensures r.Some? <==> |status.Z| > 0
      ensures r.Some? ==> r.value * 185 <= status.Z[0].V * 100 < (r.value + 1) * 185
      ensures r.Some? && 0 <= status.Z[0].V <= 185 ==> 0 <= r.value <= 100
    {
      if |status.Z| == 0 then None else Some(status.Z[0].V * 100 / 185)
    }

    // Power

    method PowerOn(net: Transport) returns (r: Reply)
      requires Valid()
      modifies this
      ensures Issued(Token(Power(true)), net, r)
    {
      r := SendCommand("PO", net);
    }

    method PowerOff(net: Transport) returns (r: Reply)
      requires Valid()
      modifies this
      ensures Issued(Token(Power(false)), net, r)
    {
      r := SendCommand("PF", net);
    }

    // Volume

    /**
     * An out-of-range percentage is answered with an Error value and nothing
     * is sent; otherwise the scaled level is sent as a three-digit token.
     */
    method SetVolume(newVol: real, net: Transport) returns (r: Reply)
      requires Valid()
      modifies this
      ensures newVol > 100.0 || newVol < 0.0 ==> r == ReturnedError(VolumeRangeMessage) && sent == old(sent)
      ensures 0.0 <= newVol <= 100.0 ==> Issued(Token(SetLevel(RawVolume(newVol))), net, r)
    {
      if newVol > 100.0 || newVol < 0.0 {
        return ReturnedError(VolumeRangeMessage);
      }
      var raw := RawVolume(newVol);
      var newVolume := DecimalString(raw);
      if |newVolume| == 1 {
        LeadingZero(newVolume);
        LeadingZero(['0'] + newVolume);
        newVolume := "00" + newVolume;
      }
      if |newVolume| == 2 {
        LeadingZero(newVolume);
        newVolume := "0" + newVolume;
      }
      ThreeDigitsOfParse(newVolume);
      assert newVolume + "VL" == Token(SetLevel(raw));
      r := SendCommand(newVolume + "VL", net);
    }

    /** Two up steps, the second only once the first has completed. */
    method VolumeUp(net: Transport) returns (r: Reply)
      requires Valid()
      modifies this
      ensures var step := Token(VolumeStep(true));
        if net(|old(sent)|, CommandUrl(step)) then
          && sent == old(sent) + [step, step]
          && r == if net(|old(sent)| + 1, CommandUrl(step)) then Resolved(Ack) else Rejected(ConnectFailure)
        else
          sent == old(sent) + [step] && r == Rejected(ConnectFailure)
    {
      r := SendCommand("VU", net);
      if r.Rejected? {
        return;
      }
      r := SendCommand("VU", net);
    }

    /** Two down steps, the second only once the first has completed. */
    method VolumeDown(net: Transport) returns (r: Reply)
      requires Valid()
      modifies this
      ensures var step := Token(VolumeStep(false));
        if net(|old(sent)|, CommandUrl(step)) then
          && sent == old(sent) + [step, step]
          && r == if net(|old(sent)| + 1, CommandUrl(step)) then Resolved(Ack) else Rejected(ConnectFailure)
        else
          sent == old(sent) + [step] && r == Rejected(ConnectFailure)
    {
      r := SendCommand("VD", net);
      if r.Rejected? {
        return;
      }
      r := SendCommand("VD", net);
    }

    method Mute(net: Transport) returns (r: Reply)
      requires Valid()
      modifies this
      ensures Issued(Token(Muting(true)), net, r)
    {
      r := SendCommand("MO", net);
    }

    method UnMute(net: Transport) returns (r: Reply)
      requires Valid()
      modifies this
      ensures Issued(Token(Muting(false)), net, r)
    {
      r := SendCommand("MF", net);
    }

    // Input

    method SetInput(newInput: Input, net: Transport) returns (r: Reply)
      requires Valid()
      modifies this
      ensures Issued(Token(SelectInput(inputNums(newInput))), net, r)
    {
      var input := inputNums(newInput);
      r := SendCommand(input + "FN", net);
    }

    method InputNext(net: Transport) returns (r: Reply)
      requires Valid()
      modifies this
      ensures Issued(Token(InputStep(true)), net, r)
    {
      r := SendCommand("FU", net);
    }

    method InputPrev(net: Transport) returns (r: Reply)
      requires Valid()
      modifies this
      ensures Issued(Token(InputStep(false)), net, r)
    {
      r := SendCommand("FD", net);
    }

    // Tone control

    method BaseUp(net: Transport) returns (r: Reply)
      requires Valid()
      modifies this
      ensures Issued(Token(BassStep(true)), net, r)
    {
      r := SendCommand("BI", net);
    }

    method BaseDown(net: Transport) returns (r: Reply)
      requires Valid()
      modifies this
      ensures Issued(Token(BassStep(false)), net, r)
    {
      r := SendCommand("BD", net);
    }

    method TrebleUp(net: Transport) returns (r: Reply)
      requires Valid()
      modifies this
      ensures Issued(Token(TrebleStep(true)), net, r)
    {
      r := SendCommand("TI", net);
    }

    method TrebleDown(net: Transport) returns (r: Reply)
      requires Valid()
      modifies this
      ensures Issued(Token(TrebleStep(false)), net, r)
    {
      r := SendCommand("TD", net);
    }

    // Sound explorer modes

    method SetDialogEnhancementMode(mode: DialogMode, net: Transport) returns (r: Reply)
      requires Valid()
      modifies this
      ensures Issued(Token(DialogEnhancement(mode)), net, r)
    {
      r := SendCommand(DecimalString(DialogDigit(mode)) + "ATH", net);
    }

    method SetPQLSMode(mode: PqlsMode, net: Transport) returns (r: Reply)
      requires Valid()
      modifies this
      ensures Issued(Token(Pqls(mode)), net, r)
    {
      r := SendCommand(Flag(mode == Auto) + "PQ", net);
    }

    method SetEQMode(mode: OnOff, net: Transport) returns (r: Reply)
      requires Valid()
      modifies this
      ensures Issued(Token(Eq(mode)), net, r)
    {
      r := SendCommand(Flag(mode == On) + "ATC", net);
    }

    method SetStandingWaveMode(mode: OnOff, net: Transport) returns (r: Reply)
      requires Valid()
      modifies this
      ensures Issued(Token(StandingWave(mode)), net, r)
    {
      r := SendCommand(Flag(mode == On) + "ATD", net);
    }

    method SetPhaseControlMode(mode: OnOff, net: Transport) returns (r: Reply)
      requires Valid()
      modifies this
      ensures Issued(Token(PhaseControl(mode)), net, r)
    {
      r := SendCommand(Flag(mode == On) + "IS", net);
    }

    method SetToneMode(mode: ToneMode, net: Transport) returns (r: Reply)
      requires Valid()
      modifies this
      ensures Issued(Token(ToneControl(mode)), net, r)
    {
      r := SendCommand(Flag(mode == ToneOn) + "TO", net);
    }

    method SetAutoSoundRetrieverMode(mode: OnOff, net: Transport) returns (r: Reply)
      requires Valid()
      modifies this
      ensures Issued(Token(AutoSoundRetriever(mode)), net, r)
    {
      r := SendCommand(Flag(mode == On) + "ATA", net);
    }

    method SetDigitalNoiseReductionMode(mode: OnOff, net: Transport) returns (r: Reply)
      requires Valid()
      modifies this
      ensures Issued(Token(DigitalNoiseReduction(mode)), net, r)
    {
      r := SendCommand(Flag(mode == On) + "ATG", net);
    }
  }
}
