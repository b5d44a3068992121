/** The encounter screen's own logic: the countdown and its display, and the guards on
    sending a line and ordering a test. The session itself lives in the app. */
module ChatInterface {
  import opened Types
  import opened Text

  const SessionSeconds := 15 * 60
  const WarningSeconds := 300

  /** `m:ss`: whole minutes, a colon, then the seconds padded to two digits. */
  function FormatTime(seconds: nat): (r: string)
    ensures |r| >= 4
  {
    NatToString(seconds / 60) + ":" + PadStart(NatToString(seconds % 60), 2, '0')
  }

  predicate AllDigits(s: string) {
    forall i :: 0 <= i < |s| ==> '0' <= s[i] <= '9'
  }

  /** A two-digit field with a leading zero reads as its last digit. */
  lemma PaddedDigitsRead(d: nat)
    requires d < 60
    ensures var p := PadStart(NatToString(d), 2, '0');
      |p| == 2 && AllDigits(p) && ParseDigits(p) == d
  {
    var s := NatToString(d);
    ParseNatToString(d);
    if d >= 10 {
      assert NatToString(d / 10) == [Digit(d / 10)];
      assert |s| == 2;
    } else {
      var p := PadStart(s, 2, '0');
      assert p == ['0'] + s;
      assert p[..1] == "0";
      assert ParseDigits(p[..1]) == ParseDigits([]) * 10 + 0;
    }
  }

  /** The two fields of a `m:ss` text sit either side of its third-last character. */
  lemma ClockFields(m: string, p: string)
    requires |p| == 2
    ensures var r := m + ":" + p;
      r[|r| - 3] == ':' && r[..|r| - 3] == m && r[|r| - 2..] == p
  {
  }

  /** The display reads back as the time: the minutes before the colon, two digits after
      it, and minutes times sixty plus seconds is the count shown. */
  lemma FormatTimeReadsBack(seconds: nat)
    ensures var r := FormatTime(seconds);
      && r[|r| - 3] == ':'
      && AllDigits(r[..|r| - 3]) && AllDigits(r[|r| - 2..])
      && ParseDigits(r[|r| - 2..]) < 60
      && ParseDigits(r[..|r| - 3]) * 60 + ParseDigits(r[|r| - 2..]) == seconds
  {
    var m := NatToString(seconds / 60);
    var p := PadStart(NatToString(seconds % 60), 2, '0');
    PaddedDigitsRead(seconds % 60);
    ParseNatToString(seconds / 60);
    ClockFields(m, p);
  }

  /** A JavaScript truthiness test on the optional loading message. */
  predicate Loading(loadingMessage: Option<string>) {
    loadingMessage.Some? && loadingMessage.value != ""
  }

  /** A line is sent only when it is not blank, nothing is loading and the session is on. */
  predicate SubmitAllowed(input: string, loadingMessage: Option<string>, isSessionActive: bool) {
    !IsBlank(input) && !Loading(loadingMessage) && isSessionActive
  }

  /** The one-tap orders. */
  const QuickTests := ["CBC", "BMP", "ECG", "CXR", "Trop"]

  /** What the screen hands to the app. */
  datatype Outgoing = SentLine(text: string) | OrderedTest(name: string)

  datatype PanelState = PanelState(
    input: string, testInput: string, showCustomOrder: bool, timeLeft: int, outbox: seq<Outgoing>)

  class ChatPanel {
    var state: PanelState

    /** The countdown never leaves 0..900. */
    predicate Valid()
      reads this
    {
      0 <= state.timeLeft <= SessionSeconds
    }

    constructor ()
      ensures state == PanelState("", "", false, SessionSeconds, []) && Valid()
    {
      state := PanelState("", "", false, SessionSeconds, []);
    }

    /** The warning style shows under five minutes. */
    predicate TimeWarning()
      reads this
    {
      state.timeLeft < WarningSeconds
    }

    /** One interval tick: a second passes only while the session is on and time is left. */
    method Tick(isSessionActive: bool)
      requires Valid()
      modifies this
      ensures isSessionActive && old(state).timeLeft > 0 ==>
        state == old(state).(timeLeft := old(state).timeLeft - 1)
      ensures !(isSessionActive && old(state).timeLeft > 0) ==> state == old(state)
      ensures Valid() && state.timeLeft <= old(state).timeLeft
      ensures old(TimeWarning()) ==> TimeWarning()
    {
      if isSessionActive && state.timeLeft > 0 {
        state := state.(timeLeft := state.timeLeft - 1);
      }
    }

    method Type(text: string)
      requires Valid()
      modifies this
      ensures state == old(state).(input := text) && Valid()
    {
      state := state.(input := text);
    }

    method TypeTest(text: string)
      requires Valid()
      modifies this
      ensures state == old(state).(testInput := text) && Valid()
    {
      state := state.(testInput := text);
    }

    /** Sends the typed line and clears the field when allowed; otherwise nothing. */
    method Submit(loadingMessage: Option<string>, isSessionActive: bool)
      requires Valid()
      modifies this
      ensures SubmitAllowed(old(state).input, loadingMessage, isSessionActive) ==>
        state == old(state).(input := "", outbox := old(state).outbox + [SentLine(old(state).input)])
      ensures !SubmitAllowed(old(state).input, loadingMessage, isSessionActive) ==> state == old(state)
      ensures Valid()
    {
      if SubmitAllowed(state.input, loadingMessage, isSessionActive) {
        state := state.(input := "", outbox := state.outbox + [SentLine(state.input)]);
      }
    }

    /** A named custom order goes out, the field is cleared and the popover closes; a blank
        name is ignored. */
    method SubmitOrder()
      requires Valid()
      modifies this
      ensures !IsBlank(old(state).testInput) ==>
        state == old(state).(testInput := "", showCustomOrder := false,
                             outbox := old(state).outbox + [OrderedTest(old(state).testInput)])
      ensures IsBlank(old(state).testInput) ==> state == old(state)
      ensures Valid()
    {
      if !IsBlank(state.testInput) {
        state := state.(testInput := "", showCustomOrder := false,
                        outbox := state.outbox + [OrderedTest(state.testInput)]);
      }
    }

    method QuickOrder(k: int)
      requires Valid() && 0 <= k < |QuickTests|
      modifies this
      ensures state == old(state).(outbox := old(state).outbox + [OrderedTest(QuickTests[k])]) && Valid()
    {
      state := state.(outbox := state.outbox + [OrderedTest(QuickTests[k])]);
    }

    /** The "Other" button. */
    method ToggleCustomOrder()
      requires Valid()
      modifies this
      ensures state == old(state).(showCustomOrder := !old(state).showCustomOrder) && Valid()
    {
      state := state.(showCustomOrder := !state.showCustomOrder);
    }

    method CloseCustomOrder()
      requires Valid()
      modifies this
      ensures state == old(state).(showCustomOrder := false) && Valid()
    {
      state := state.(showCustomOrder := false);
    }
  }
}
