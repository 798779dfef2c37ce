/** The application shell: which screen is shown, the result of the last
    scream, the category and message chosen from its peak intensity, and
    the gates in front of the library and of saving a scream. The signed-in
    user and the subscription are inputs; saving goes to an external store
    whose requests are logged. */
module Shell {
  import opened Options
  import opened Recorder
  import Session

  datatype Screen = Landing | Screaming | Aftermath | Chat | Sounds | Paywall | Library

  /** The five result buckets, quietest first. */
  datatype Category = Whisper | Normal | Loud | VeryLoud | Extreme

  function Rank(c: Category): nat {
    match c
    case Whisper => 0
    case Normal => 1
    case Loud => 2
    case VeryLoud => 3
    case Extreme => 4
  }

  function Label(c: Category): string {
    match c
    case Whisper => "Whisper"
    case Normal => "Normal"
    case Loud => "Loud"
    case VeryLoud => "Very Loud"
    case Extreme => "Extreme"
  }

  /** The message shown for each bucket. */
  function Message(c: Category): string {
    match c
    case Whisper => "A gentle release - you're finding your inner peace."
    case Normal => "Moderate intensity - you're letting go of daily stress."
    case Loud => "Strong expression - you're releasing deep tension."
    case VeryLoud => "Powerful release - you're breaking through barriers."
    case Extreme => "Maximum intensity - you've unleashed your inner warrior!"
  }

  /** `getPitchCategory`: boundaries at 15, 30, 40 and 50. */
  function PitchCategory(pitch: real): (c: Category)
    ensures c == Whisper <==> pitch < 15.0
    ensures c == Normal <==> 15.0 <= pitch < 30.0
    ensures c == Loud <==> 30.0 <= pitch < 40.0
    ensures c == VeryLoud <==> 40.0 <= pitch < 50.0
    ensures c == Extreme <==> 50.0 <= pitch
  {
    if pitch < 15.0 then Whisper
    else if pitch < 30.0 then Normal
    else if pitch < 40.0 then Loud
    else if pitch < 50.0 then VeryLoud
    else Extreme
  }

  /** `getPitchAssumption`: its own chain of comparisons. */
  function PitchAssumption(pitch: real): string {
    if pitch < 15.0 then "A gentle release - you're finding your inner peace."
    else if pitch < 30.0 then "Moderate intensity - you're letting go of daily stress."
    else if pitch < 40.0 then "Strong expression - you're releasing deep tension."
    else if pitch < 50.0 then "Powerful release - you're breaking through barriers."
    else "Maximum intensity - you've unleashed your inner warrior!"
  }

  /** The message and the category always fall in the same bucket, and the
      message alone tells the bucket. */
  lemma AssumptionMatchesCategory(pitch: real)
    ensures PitchAssumption(pitch) == Message(PitchCategory(pitch))
    ensures forall c: Category :: Message(c) == PitchAssumption(pitch) <==> c == PitchCategory(pitch)
  {
  }

  /** The category text on the result screen names the bucket: no two
      buckets share a label, and the label of a peak's bucket is the text
      the chain of comparisons picks for it. */
  lemma LabelNamesCategory(pitch: real)
    ensures forall c: Category :: Label(c) == Label(PitchCategory(pitch)) <==> c == PitchCategory(pitch)
    ensures pitch < 15.0 ==> Label(PitchCategory(pitch)) == "Whisper"
    ensures 15.0 <= pitch < 30.0 ==> Label(PitchCategory(pitch)) == "Normal"
    ensures 30.0 <= pitch < 40.0 ==> Label(PitchCategory(pitch)) == "Loud"
    ensures 40.0 <= pitch < 50.0 ==> Label(PitchCategory(pitch)) == "Very Loud"
    ensures 50.0 <= pitch ==> Label(PitchCategory(pitch)) == "Extreme"
  {
  }

  /** A louder peak never lands in a quieter bucket. */
  lemma CategoryMonotone(p: real, q: real)
    requires p <= q
    ensures Rank(PitchCategory(p)) <= Rank(PitchCategory(q))
  {
  }

  /** The live readout's colour agrees with the result bucket: blue exactly
      for a whisper, pink exactly for loud and very loud. */
  lemma IntensityColorFollowsCategory(pitch: real)
    ensures Session.IntensityColor(pitch) == Session.CalmBlueTint <==> PitchCategory(pitch) == Whisper
    ensures Session.IntensityColor(pitch) == Session.AccentPink <==>
      PitchCategory(pitch) == Loud || PitchCategory(pitch) == VeryLoud
    ensures Session.IntensityColor(pitch) == Session.PrimaryPurple <==>
      PitchCategory(pitch) == Normal || PitchCategory(pitch) == Extreme
  {
  }

  /** Where the result marker sits, in per cent of the scale: full at 60. */
  function MarkerOffset(maxPitch: real): (x: real)
    ensures x <= 100.0
    ensures x == 100.0 <==> maxPitch >= 60.0
    ensures maxPitch >= 0.0 ==> x >= 0.0
    ensures 0.0 <= maxPitch <= 60.0 ==> x * 60.0 == maxPitch * 100.0
  {
    var scaled := maxPitch / 60.0 * 100.0;
    if scaled <= 100.0 then scaled else 100.0
  }

  /** One call of the external `saveScream`. */
  datatype SaveRequest = SaveRequest(blob: Blob, name: string, duration: nat, maxPitch: real)

  class App {
    var currentState: Screen
    var hasScreamed: bool
    var maxPitch: real
    var sessionDuration: nat
    var recordedBlob: Option<Blob>
    var showSaveModal: bool
    /** Every request sent to the store, in order. */
    var saveRequests: seq<SaveRequest>

    constructor ()
      ensures currentState == Landing && !hasScreamed && maxPitch == 0.0 && sessionDuration == 0
      ensures recordedBlob == None && !showSaveModal && saveRequests == []
    {
      currentState, hasScreamed, maxPitch, sessionDuration := Landing, false, 0.0, 0;
      recordedBlob, showSaveModal, saveRequests := None, false, [];
    }

    /** The save button shows on the result screen only for a signed-in
        user with a recording. */
    predicate SaveButtonShown(signedIn: bool)
      reads this
    {
      currentState == Aftermath && signedIn && recordedBlob.Some?
    }

    method HandleScreamStart()
      modifies this
      ensures currentState == Screaming
      ensures hasScreamed == old(hasScreamed) && maxPitch == old(maxPitch)
      ensures sessionDuration == old(sessionDuration) && recordedBlob == old(recordedBlob)
      ensures showSaveModal == old(showSaveModal) && saveRequests == old(saveRequests)
    {
      currentState := Screaming;
    }

    /** `handleScreamEnd`: keep the result and show it. A blob object is
        always truthy, so the recording is kept exactly as reported. */
    method HandleScreamEnd(pitch: real, duration: nat, blob: Option<Blob>)
      modifies this
      ensures currentState == Aftermath && hasScreamed
      ensures maxPitch == pitch && sessionDuration == duration && recordedBlob == blob
      ensures showSaveModal == old(showSaveModal) && saveRequests == old(saveRequests)
    {
      hasScreamed, maxPitch, sessionDuration := true, pitch, duration;
      recordedBlob := blob;
      currentState := Aftermath;
    }

    /** `handleReset`: back to the landing screen with the result cleared. */
    method HandleReset()
      modifies this
      ensures currentState == Landing && !hasScreamed
      ensures maxPitch == 0.0 && sessionDuration == 0 && recordedBlob == None
      ensures showSaveModal == old(showSaveModal) && saveRequests == old(saveRequests)
    {
      currentState, hasScreamed := Landing, false;
      maxPitch, sessionDuration, recordedBlob := 0.0, 0, None;
    }

    /** `handleProfileClick`: the library for a subscribed user, the paywall
        for everyone else. */
    method HandleProfileClick(signedIn: bool, hasActiveSubscription: bool)
      modifies this
      ensures currentState == Library <==> signedIn && hasActiveSubscription
      ensures currentState == Paywall <==> !(signedIn && hasActiveSubscription)
      ensures hasScreamed == old(hasScreamed) && maxPitch == old(maxPitch)
      ensures sessionDuration == old(sessionDuration) && recordedBlob == old(recordedBlob)
      ensures showSaveModal == old(showSaveModal) && saveRequests == old(saveRequests)
    {
      if !signedIn {
        currentState := Paywall;
        return;
      }
      if !hasActiveSubscription {
        currentState := Paywall;
      } else {
        currentState := Library;
      }
    }

    /** `handleSaveScream`: open the naming dialog for a subscribed user;
        everyone else goes to the paywall with the dialog flag untouched. */
    method HandleSaveScream(signedIn: bool, hasActiveSubscription: bool)
      modifies this
      ensures signedIn && hasActiveSubscription ==> showSaveModal && currentState == old(currentState)
      ensures !(signedIn && hasActiveSubscription) ==>
        currentState == Paywall && showSaveModal == old(showSaveModal)
      ensures hasScreamed == old(hasScreamed) && maxPitch == old(maxPitch)
      ensures sessionDuration == old(sessionDuration) && recordedBlob == old(recordedBlob)
      ensures saveRequests == old(saveRequests)
    {
      if !signedIn {
        currentState := Paywall;
        return;
      }
      if !hasActiveSubscription {
        currentState := Paywall;
        return;
      }
      showSaveModal := true;
    }

    /** `handleSaveScreamConfirm`: nothing without a recording or a user;
        otherwise one request to the store, and on success the dialog closes
        and the recording is dropped. A failed save changes nothing else. */
    method HandleSaveScreamConfirm(name: string, signedIn: bool, saveOk: bool)
      modifies this
      ensures old(recordedBlob) == None || !signedIn ==>
        && saveRequests == old(saveRequests) && showSaveModal == old(showSaveModal)
        && recordedBlob == old(recordedBlob)
      ensures old(recordedBlob).Some? && signedIn ==>
        saveRequests == old(saveRequests)
          + [SaveRequest(old(recordedBlob).value, name, sessionDuration, maxPitch)]
      ensures old(recordedBlob).Some? && signedIn && saveOk ==> !showSaveModal && recordedBlob == None
      ensures old(recordedBlob).Some? && signedIn && !saveOk ==>
        showSaveModal == old(showSaveModal) && recordedBlob == old(recordedBlob)
      ensures currentState == old(currentState) && hasScreamed == old(hasScreamed)
      ensures maxPitch == old(maxPitch) && sessionDuration == old(sessionDuration)
    {
      if recordedBlob.None? || !signedIn {
        return;
      }
      saveRequests := saveRequests + [SaveRequest(recordedBlob.value, name, sessionDuration, maxPitch)];
      if saveOk {
        showSaveModal := false;
        recordedBlob := None;
      }
    }
  }

  /** A scream as the session stops it today, handed to the shell: the
      result screen never offers to save it, whoever is signed in. */
  method AsWrittenScreamCannotBeSaved(firstFrame: seq<Byte>, deliveries: seq<Chunk>, signedIn: bool)
    returns (app: App)
    requires |firstFrame| == FrequencyBinCount
    ensures app.currentState == Aftermath && !app.SaveButtonShown(signedIn)
    ensures app.maxPitch == PitchOf(firstFrame)
  {
    app := new App();
    app.HandleScreamStart();
    var report := Session.FreshSessionReportsNoBlob(firstFrame, deliveries);
    app.HandleScreamEnd(report.value.maxPitch, report.value.duration, report.value.blob);
  }

  /** The same scream stopped with the waiting stop: a signed-in user is
      offered the save, and a successful save sends exactly the non-empty
      chunks, including those handed over at the stop, to the store. */
  method WaitingStopScreamIsSaved(firstFrame: seq<Byte>, deliveries: seq<Chunk>, final: seq<Chunk>, name: string)
    returns (app: App)
    requires |firstFrame| == FrequencyBinCount
    ensures app.saveRequests == [SaveRequest(Blob(Collected(deliveries + final)), name, 0, PitchOf(firstFrame))]
    ensures app.recordedBlob == None && !app.showSaveModal
  {
    app := new App();
    app.HandleScreamStart();
    var report := Session.FreshSessionReportsRecording(firstFrame, deliveries, final);
    app.HandleScreamEnd(report.maxPitch, report.duration, report.blob);
    assert app.SaveButtonShown(true);
    app.HandleSaveScream(true, true);
    app.HandleSaveScreamConfirm(name, true, true);
  }
}
