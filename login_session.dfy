/** The voice login screen around `handleVoice`: the flags and slots the
    screen keeps in refs (`activeRef`, `recordingRef`, `timeoutRef`), the
    phone field, the speech queue, the awaits still pending and what the
    user has been shown. Audio, speech, timers and the backend are outside
    the model: each of their answers is an event that names the await or
    timer it settles. */
module LoginSession {
  import opened Text
  import opened Navigation
  import opened VoiceInterpreter

  const IntroText: string := "Welcome. Say your ten digit mobile number or say sign up."
  const RepeatText: string := "Please repeat clearly."
  const SignUpText: string := "Opening sign up page"
  const SuccessText: string := "Login successful"
  const PermissionDeniedText: string := "Microphone permission denied"

  /** The two `setTimeout`s: the 300 ms intro delay of the focus effect and
      the 10 s capture limit of a recording. */
  datatype Timer = IntroDelay | CaptureTimeout

  /** What an utterance's `onDone` does. */
  datatype Then = Listen | OpenSignUpScreen | EnterHome(phone: string)

  datatype Utterance = Utterance(text: string, onDone: Then)

  /** An `await` that has not settled yet, with the recording or clip it
      concerns. */
  datatype Task =
    | AwaitPermission          // Audio.requestPermissionsAsync in startListening
    | AwaitAudioMode           // Audio.setAudioModeAsync
    | AwaitRecorder            // Audio.Recording.createAsync
    | AwaitStop(rec: nat)      // stopAndUnloadAsync in stopRecording
    | AwaitTeardown(rec: nat)  // stopAndUnloadAsync in stopAll
    | AwaitUpload(uri: string) // fetch and res.json in sendToBackend

  datatype Permission = Granted | Denied | PermissionFailed

  /** The backend's answer: a JSON body with its `status` and `text`, or a
      thrown error (network failure, a body that is not JSON). */
  datatype Reply = Json(status: string, text: Option<string>) | Failed

  datatype Effect = Went(nav: Nav) | Alerted(message: string)

  datatype Session = Session(
    phone: string,
    active: bool,                 // activeRef.current
    recording: Option<nat>,       // recordingRef.current
    captureTimer: Option<nat>,    // timeoutRef.current
    introDelay: Option<nat>,      // the `delay` of the last focus
    timers: map<nat, Timer>,      // timers set and neither fired nor cleared
    nextTimer: nat,
    nextRecording: nat,
    speech: seq<Utterance>,       // spoken first to last
    tasks: seq<Task>,
    effects: seq<Effect>)

  /** Fresh timer and recording identities are never in use. */
  ghost predicate Valid(s: Session) {
    && (forall id :: id in s.timers ==> id < s.nextTimer)
    && (s.recording.Some? ==> s.recording.value < s.nextRecording)
  }

  /** The screen as first rendered: `activeRef` starts `true`. */
  function Initial(): (s: Session)
    ensures Valid(s) && s.active && s.phone == [] && s.recording.None?
    ensures s.speech == [] && s.tasks == [] && s.effects == []
  {
    Session("", true, None, None, None, map[], 0, 0, [], [], [])
  }

  function RemoveAt<T>(xs: seq<T>, i: nat): (r: seq<T>)
    requires i < |xs|
    ensures |r| == |xs| - 1
    ensures forall k :: 0 <= k < |r| ==> r[k] == if k < i then xs[k] else xs[k + 1]
  {
    xs[..i] + xs[i + 1..]
  }

  /** `clearTimeout`, a no-op for `null` or an identity already gone. */
  function ClearTimer(timers: map<nat, Timer>, id: Option<nat>): (r: map<nat, Timer>)
    ensures id.Some? ==> id.value !in r
    ensures forall k :: k in r <==> k in timers && id != Some(k)
    ensures forall k :: k in r ==> r[k] == timers[k]
  {
    if id.Some? then timers - {id.value} else timers
  }

  /** `Speech.speak`: the utterance waits behind those already queued. */
  function Say(s: Session, text: string, next: Then): (r: Session)
    ensures |r.speech| == |s.speech| + 1 && r.speech[..|s.speech|] == s.speech
    ensures r.speech[|s.speech|] == Utterance(text, next)
    ensures r.(speech := s.speech) == s
  {
    s.(speech := s.speech + [Utterance(text, next)])
  }

  /** The focus effect: set the flag and start the intro delay. */
  function FocusStep(s: Session): (r: Session)
    ensures Valid(s) ==> Valid(r)
    ensures r.active && r.introDelay == Some(s.nextTimer)
    ensures r.timers == s.timers[s.nextTimer := IntroDelay]
    ensures Valid(s) ==> s.nextTimer !in s.timers
    ensures r.phone == s.phone && r.recording == s.recording && r.speech == s.speech
    ensures r.tasks == s.tasks && r.effects == s.effects
  {
    s.(active := true, introDelay := Some(s.nextTimer),
       timers := s.timers[s.nextTimer := IntroDelay], nextTimer := s.nextTimer + 1)
  }

  /** The tail of `stopAll`, after any recording has been unloaded: clear the
      capture timer and stop speaking, which drops the queue. */
  function FinishStopAll(s: Session): (r: Session)
    ensures Valid(s) ==> Valid(r)
    ensures r.speech == [] && s.captureTimer == r.captureTimer
    ensures s.captureTimer.Some? ==> s.captureTimer.value !in r.timers
  {
    s.(timers := ClearTimer(s.timers, s.captureTimer), speech := [])
  }

  /** `stopAll`: lower the flag; with a recording held, the rest waits for
      its unload. */
  function StopAllStep(s: Session): (r: Session)
    ensures Valid(s) ==> Valid(r)
    ensures !r.active && r.phone == s.phone && r.effects == s.effects
    ensures s.recording.None? ==> r == FinishStopAll(s.(active := false))
    ensures s.recording.Some? ==>
      r == s.(active := false, tasks := s.tasks + [AwaitTeardown(s.recording.value)])
  {
    var s1 := s.(active := false);
    if s.recording.Some? then s1.(tasks := s.tasks + [AwaitTeardown(s.recording.value)])
    else FinishStopAll(s1)
  }

  /** The focus effect's cleanup: clear the intro delay, then `stopAll`. */
  function BlurStep(s: Session): (r: Session)
    ensures Valid(s) ==> Valid(r)
    ensures !r.active
    ensures s.introDelay.Some? ==> s.introDelay.value !in r.timers
  {
    StopAllStep(s.(timers := ClearTimer(s.timers, s.introDelay)))
  }

  /** The unload awaited by `stopAll` settles; on rejection the rest of
      `stopAll` never runs. */
  function TeardownStep(s: Session, i: nat, ok: bool): (r: Session)
    requires i < |s.tasks| && s.tasks[i].AwaitTeardown?
    ensures Valid(s) ==> Valid(r)
    ensures ok ==> r.recording.None? && r.speech == []
    ensures !ok ==> r == s.(tasks := RemoveAt(s.tasks, i))
  {
    var s1 := s.(tasks := RemoveAt(s.tasks, i));
    if ok then FinishStopAll(s1.(recording := None)) else s1
  }

  /** `speakIntro`: stop whatever is being said, then speak the welcome. */
  function SpeakIntroStep(s: Session): (r: Session)
    ensures r == s.(speech := [Utterance(IntroText, Listen)])
  {
    s.(speech := [Utterance(IntroText, Listen)])
  }

  /** `startListening`: nothing once the screen is inactive, otherwise ask
      for the microphone. */
  function StartListeningStep(s: Session): (r: Session)
    ensures !s.active ==> r == s
    ensures s.active ==> r == s.(tasks := s.tasks + [AwaitPermission])
  {
    if !s.active then s else s.(tasks := s.tasks + [AwaitPermission])
  }

  /** `retry`: nothing once the screen is inactive, otherwise ask again and
      listen when done. */
  function RetryStep(s: Session): (r: Session)
    ensures !s.active ==> r == s
    ensures s.active ==> r == Say(s, RepeatText, Listen)
  {
    if !s.active then s else Say(s, RepeatText, Listen)
  }

  /** `stopRecording`: nothing without a recording; otherwise clear the
      capture timer and unload the recording. */
  function StopRecordingStep(s: Session): (r: Session)
    ensures Valid(s) ==> Valid(r)
    ensures s.recording.None? ==> r == s
    ensures s.recording.Some? ==> r.recording == s.recording && r.speech == s.speech
    ensures s.recording.Some? && s.captureTimer.Some? ==> s.captureTimer.value !in r.timers
    ensures s.recording.Some? ==> r.tasks == s.tasks + [AwaitStop(s.recording.value)]
  {
    if s.recording.None? then s
    else s.(timers := ClearTimer(s.timers, s.captureTimer),
            tasks := s.tasks + [AwaitStop(s.recording.value)])
  }

  /** `sendToBackend`: the clip at `uri` is posted. */
  function SendStep(s: Session, uri: string): (r: Session)
    ensures r == s.(tasks := s.tasks + [AwaitUpload(uri)])
  {
    s.(tasks := s.tasks + [AwaitUpload(uri)])
  }

  /** The unload awaited by `stopRecording` settles. If it rejects, or the
      slot was emptied meanwhile (`getURI` on `null` throws), nothing
      further happens; otherwise the slot is emptied and the clip is sent
      when its `uri` is a non-empty string. */
  function StopStep(s: Session, i: nat, ok: bool, uri: Option<string>): (r: Session)
    requires i < |s.tasks| && s.tasks[i].AwaitStop?
    ensures Valid(s) ==> Valid(r)
    ensures !ok || s.recording.None? ==> r == s.(tasks := RemoveAt(s.tasks, i))
    ensures ok && s.recording.Some? ==> r.recording.None? && r.timers == s.timers && r.speech == s.speech
    ensures ok && s.recording.Some? ==>
      r.tasks == RemoveAt(s.tasks, i) + (if uri.Some? && uri.value != [] then [AwaitUpload(uri.value)] else [])
  {
    var s1 := s.(tasks := RemoveAt(s.tasks, i));
    if !ok || s1.recording.None? then s1
    else
      var s2 := s1.(recording := None);
      if uri.Some? && uri.value != [] then SendStep(s2, uri.value) else s2
  }

  /** What `handleVoice` does once the transcript is interpreted: the
      decision is spoken, stored in the phone field or retried. The active
      flag is not looked at here. */
  function ActStep(s: Session, intent: Intent): (r: Session)
    ensures Valid(s) ==> Valid(r)
    ensures r.effects == s.effects && r.tasks == s.tasks && r.active == s.active
    ensures r.recording == s.recording && r.timers == s.timers
    ensures intent.FullPhone? ==> r.phone == intent.phone
    ensures intent.PartialPhone? ==> r.phone == intent.digits
    ensures intent.OpenSignUp? || intent.NoMatch? ==> r.phone == s.phone
  {
    match intent
    case OpenSignUp => Say(s, SignUpText, OpenSignUpScreen)
    case FullPhone(p) => Say(s.(phone := p), SuccessText, EnterHome(p))
    case PartialPhone(d) => RetryStep(s.(phone := d))
    case NoMatch => RetryStep(s)
  }

  /** `handleVoice` on a transcript. */
  function HandleVoiceStep(s: Session, raw: string): (r: Session)
    ensures Valid(s) ==> Valid(r)
    ensures r.active == s.active && r.recording == s.recording && r.timers == s.timers
    ensures r.tasks == s.tasks && r.effects == s.effects
  {
    ActStep(s, Interpret(raw))
  }

  /** The upload awaited by `sendToBackend` settles. A `"success"` body
      hands its text to `handleVoice`; a missing text makes `handleVoice`
      throw, which is caught like every other failure and retried. */
  function ReplyStep(s: Session, i: nat, reply: Reply): (r: Session)
    requires i < |s.tasks| && s.tasks[i].AwaitUpload?
    ensures Valid(s) ==> Valid(r)
  {
    var s1 := s.(tasks := RemoveAt(s.tasks, i));
    match reply
    case Json(status, text) =>
      if status == "success" && text.Some? then HandleVoiceStep(s1, text.value)
      else RetryStep(s1)
    case Failed => RetryStep(s1)
  }

  /** The permission request settles: granted goes on to the audio mode,
      refused shows an alert, a thrown error is logged only. */
  function PermissionStep(s: Session, i: nat, p: Permission): (r: Session)
    requires i < |s.tasks| && s.tasks[i] == AwaitPermission
    ensures Valid(s) ==> Valid(r)
    ensures p == Granted ==> r == s.(tasks := RemoveAt(s.tasks, i) + [AwaitAudioMode])
    ensures p == Denied ==>
      r == s.(tasks := RemoveAt(s.tasks, i), effects := s.effects + [Alerted(PermissionDeniedText)])
    ensures p == PermissionFailed ==> r == s.(tasks := RemoveAt(s.tasks, i))
  {
    var s1 := s.(tasks := RemoveAt(s.tasks, i));
    match p
    case Granted => s1.(tasks := s1.tasks + [AwaitAudioMode])
    case Denied => s1.(effects := s1.effects + [Alerted(PermissionDeniedText)])
    case PermissionFailed => s1
  }

  function AudioModeStep(s: Session, i: nat, ok: bool): (r: Session)
    requires i < |s.tasks| && s.tasks[i] == AwaitAudioMode
    ensures Valid(s) ==> Valid(r)
  {
    var s1 := s.(tasks := RemoveAt(s.tasks, i));
    if ok then s1.(tasks := s1.tasks + [AwaitRecorder]) else s1
  }

  /** The recorder is created: it goes into the slot (whatever was there)
      and the 10 s capture timer starts. The active flag is not looked at
      again after the awaits. */
  function RecorderStep(s: Session, i: nat, ok: bool): (r: Session)
    requires i < |s.tasks| && s.tasks[i] == AwaitRecorder
    ensures Valid(s) ==> Valid(r)
    ensures ok ==> r.recording == Some(s.nextRecording) && r.captureTimer == Some(s.nextTimer)
    ensures ok ==> r.timers == s.timers[s.nextTimer := CaptureTimeout]
    ensures r.active == s.active
  {
    var s1 := s.(tasks := RemoveAt(s.tasks, i));
    if !ok then s1
    else s1.(recording := Some(s.nextRecording), nextRecording := s.nextRecording + 1,
             captureTimer := Some(s.nextTimer), timers := s.timers[s.nextTimer := CaptureTimeout],
             nextTimer := s.nextTimer + 1)
  }

  /** A timer that was neither cleared nor already fired goes off. */
  function TimerStep(s: Session, id: nat): (r: Session)
    requires id in s.timers
    ensures Valid(s) ==> Valid(r)
  {
    var s1 := s.(timers := s.timers - {id});
    match s.timers[id]
    case IntroDelay => SpeakIntroStep(s1)
    case CaptureTimeout => StopRecordingStep(s1)
  }

  /** The utterance at the head of the queue finishes and its `onDone` runs. */
  function SpeechDoneStep(s: Session): (r: Session)
    requires s.speech != []
    ensures Valid(s) ==> Valid(r)
    ensures s.speech[0].onDone == Listen ==> r == StartListeningStep(s.(speech := s.speech[1..]))
    ensures s.speech[0].onDone == OpenSignUpScreen ==>
      r == s.(speech := s.speech[1..], effects := s.effects + [Went(Navigate(SignUp, map[]))])
    ensures s.speech[0].onDone.EnterHome? ==>
      r == s.(speech := s.speech[1..],
              effects := s.effects + [Went(Replace(HomePage, map["phone" := StrParam(s.speech[0].onDone.phone)]))])
  {
    var s1 := s.(speech := s.speech[1..]);
    match s.speech[0].onDone
    case Listen => StartListeningStep(s1)
    case OpenSignUpScreen => s1.(effects := s1.effects + [Went(Navigate(SignUp, map[]))])
    case EnterHome(p) => s1.(effects := s1.effects + [Went(Replace(HomePage, map["phone" := StrParam(p)]))])
  }

  /** The phone field's `onChangeText`; `maxLength={10}` keeps at most ten
      characters. */
  function TypePhoneStep(s: Session, text: string): (r: Session)
    ensures |r.phone| <= 10 && r.phone <= text
    ensures |text| <= 10 ==> r.phone == text
    ensures r == s.(phone := r.phone)
  {
    s.(phone := KeepAtMost(text, 10))
  }

  /** The "Sign Up" link under the field. */
  function TapSignUpStep(s: Session): (r: Session)
    ensures r == s.(effects := s.effects + [Went(Navigate(SignUp, map[]))])
  {
    s.(effects := s.effects + [Went(Navigate(SignUp, map[]))])
  }

  // ---------------------------------------------------------------------
  // Runs of events.

  datatype Event =
    | Focused
    | Blurred
    | TimerFired(id: nat)
    | SpeechFinished
    | PermissionAnswered(i: nat, p: Permission)
    | AudioModeSettled(i: nat, ok: bool)
    | RecorderSettled(i: nat, ok: bool)
    | StopSettled(i: nat, ok: bool, uri: Option<string>)
    | TeardownSettled(i: nat, ok: bool)
    | ReplyArrived(i: nat, reply: Reply)
    | PhoneTyped(text: string)
    | SignUpTapped

  /** The session after one event, or `None` when the event names no timer
      or await of its kind that is pending (or nothing is being said). */
  function Apply(s: Session, e: Event): (r: Option<Session>)
    ensures Valid(s) && r.Some? ==> Valid(r.value)
  {
    match e
    case Focused => Some(FocusStep(s))
    case Blurred => Some(BlurStep(s))
    case TimerFired(id) => if id in s.timers then Some(TimerStep(s, id)) else None
    case SpeechFinished => if s.speech != [] then Some(SpeechDoneStep(s)) else None
    case PermissionAnswered(i, p) =>
      if i < |s.tasks| && s.tasks[i] == AwaitPermission then Some(PermissionStep(s, i, p)) else None
    case AudioModeSettled(i, ok) =>
      if i < |s.tasks| && s.tasks[i] == AwaitAudioMode then Some(AudioModeStep(s, i, ok)) else None
    case RecorderSettled(i, ok) =>
      if i < |s.tasks| && s.tasks[i] == AwaitRecorder then Some(RecorderStep(s, i, ok)) else None
    case StopSettled(i, ok, uri) =>
      if i < |s.tasks| && s.tasks[i].AwaitStop? then Some(StopStep(s, i, ok, uri)) else None
    case TeardownSettled(i, ok) =>
      if i < |s.tasks| && s.tasks[i].AwaitTeardown? then Some(TeardownStep(s, i, ok)) else None
    case ReplyArrived(i, reply) =>
      if i < |s.tasks| && s.tasks[i].AwaitUpload? then Some(ReplyStep(s, i, reply)) else None
    case PhoneTyped(text) => Some(TypePhoneStep(s, text))
    case SignUpTapped => Some(TapSignUpStep(s))
  }

  /** The session after a run of events, `None` if one of them was not
      possible. */
  function Run(s: Session, es: seq<Event>): Option<Session>
    decreases |es|
  {
    if es == [] then Some(s)
    else match Apply(s, es[0])
      case None => None
      case Some(s') => Run(s', es[1..])
  }

  /** The event settling an upload runs `ReplyStep`. */
  lemma ApplyReply(s: Session, i: nat, reply: Reply)
    requires i < |s.tasks| && s.tasks[i].AwaitUpload?
    ensures Apply(s, ReplyArrived(i, reply)) == Some(ReplyStep(s, i, reply))
  {
  }

  /** A run is its first event followed by the rest. */
  lemma RunFirst(s: Session, e: Event, es: seq<Event>)
    ensures Run(s, [e] + es) == match Apply(s, e) case None => None case Some(s') => Run(s', es)
  {
    assert ([e] + es)[0] == e && ([e] + es)[1..] == es;
  }

  /** An await that can still end with a recording in the slot. */
  predicate Acquiring(t: Task) {
    t.AwaitPermission? || t.AwaitAudioMode? || t.AwaitRecorder?
  }

  /** Stopped, holding no recording, and with no await pending that could
      bring one. */
  ghost predicate Quiet(s: Session) {
    !s.active && s.recording.None? && forall k :: 0 <= k < |s.tasks| ==> !Acquiring(s.tasks[k])
  }

  /** No single event other than a new focus disturbs a quiet session. */
  lemma QuietStep(s: Session, e: Event)
    requires Quiet(s) && e != Focused
    ensures Apply(s, e).Some? ==> Quiet(Apply(s, e).value)
  {
    match e
    case TimerFired(id) =>
    case SpeechFinished =>
    case PermissionAnswered(i, p) =>
    case AudioModeSettled(i, ok) =>
    case RecorderSettled(i, ok) =>
    case ReplyArrived(i, reply) =>
      if i < |s.tasks| && s.tasks[i].AwaitUpload? {
        var s1 := s.(tasks := RemoveAt(s.tasks, i));
        assert Quiet(s1);
        if reply.Json? && reply.status == "success" && reply.text.Some? {
          assert Quiet(HandleVoiceStep(s1, reply.text.value));
        }
      }
    case _ =>
  }

  /** Once `stopAll` has run and no permission, audio-mode or recorder
      await is left pending, nothing short of a new focus makes the screen
      listen: `retry` and `startListening` stay silent whatever the backend
      or the speech engine report, and no recording is ever started. */
  lemma {:induction false} QuietUntilFocus(s: Session, es: seq<Event>)
    requires Quiet(s)
    requires forall k :: 0 <= k < |es| ==> es[k] != Focused
    ensures Run(s, es).Some? ==> Quiet(Run(s, es).value)
    ensures Run(s, es).Some? ==> Run(s, es).value.recording.None?
    decreases |es|
  {
    if es != [] {
      QuietStep(s, es[0]);
      if Apply(s, es[0]).Some? {
        QuietUntilFocus(Apply(s, es[0]).value, es[1..]);
      }
    }
  }

  /** A recorder whose creation is still awaited when the screen loses focus
      is stored anyway once it settles, and its 10 s capture timer is armed:
      the screen ends inactive yet holds a live recording, outside `Quiet`. */
  lemma LateRecorderStillRecords(s: Session, i: nat)
    requires Valid(s) && i < |s.tasks| && s.tasks[i] == AwaitRecorder
    ensures var r := Run(s, [Blurred, RecorderSettled(i, true)]);
      && r.Some? && !r.value.active && r.value.recording.Some?
      && r.value.captureTimer.Some? && r.value.captureTimer.value in r.value.timers
      && r.value.timers[r.value.captureTimer.value] == CaptureTimeout
      && !Quiet(r.value)
  {
    var s1 := BlurStep(s);
    assert s1.tasks[..|s.tasks|] == s.tasks by {
      assert s1.tasks == s.tasks || s1.tasks == s.tasks + [AwaitTeardown(s.recording.value)];
    }
    assert s1.tasks[i] == AwaitRecorder;
    var s2 := RecorderStep(s1, i, true);
    assert Apply(s1, RecorderSettled(i, true)) == Some(s2);
    assert Run(s1, [RecorderSettled(i, true)]) == Some(s2) by {
      RunFirst(s1, RecorderSettled(i, true), []);
    }
    assert Run(s, [Blurred, RecorderSettled(i, true)]) == Some(s2) by {
      RunFirst(s, Blurred, [RecorderSettled(i, true)]);
    }
    assert !s2.active && s2.recording.Some? && s2.captureTimer == Some(s1.nextTimer);
    assert s2.timers[s1.nextTimer] == CaptureTimeout;
  }

  /** The focus, the intro, its end, a granted microphone and a set audio
      mode leave the screen awaiting its recorder. */
  lemma FocusReachesRecorder()
    ensures var r := Run(Initial(), [Focused, TimerFired(0), SpeechFinished,
                                     PermissionAnswered(0, Granted), AudioModeSettled(0, true)]);
      r.Some? && Valid(r.value) && r.value.active && r.value.tasks == [AwaitRecorder]
  {
    var s0 := Initial();
    var s1 := FocusStep(s0);
    var s2 := SpeakIntroStep(s1.(timers := s1.timers - {0}));
    var s3 := StartListeningStep(s2.(speech := []));
    var s4 := PermissionStep(s3, 0, Granted);
    var s5 := AudioModeStep(s4, 0, true);
    assert s5.active && s5.tasks == [AwaitRecorder];
    RunFirst(s4, AudioModeSettled(0, true), []);
    RunFirst(s3, PermissionAnswered(0, Granted), [AudioModeSettled(0, true)]);
    RunFirst(s2, SpeechFinished, [PermissionAnswered(0, Granted), AudioModeSettled(0, true)]);
    RunFirst(s1, TimerFired(0), [SpeechFinished, PermissionAnswered(0, Granted), AudioModeSettled(0, true)]);
    RunFirst(s0, Focused, [TimerFired(0), SpeechFinished, PermissionAnswered(0, Granted), AudioModeSettled(0, true)]);
  }

  /** What one transcript does to the session, read off the raw text: a
      spoken sign-up queues "Opening sign up page" and leaves the phone; ten
      or more digits store the first ten and queue "Login successful"
      followed by the move to HomePage; one to nine digits store them and
      retry; otherwise only a retry. Nothing is navigated at once. */
  lemma HandleVoiceOutcome(s: Session, raw: string)
    ensures var r := HandleVoiceStep(s, raw);
      var d := Digits(raw);
      && r.effects == s.effects && r.tasks == s.tasks && r.active == s.active
      && (Contains(RewriteSignUp(Normalise(raw)), SignUpWord) ==>
            r == Say(s, SignUpText, OpenSignUpScreen))
      && (!Contains(RewriteSignUp(Normalise(raw)), SignUpWord) && |d| >= 10 ==>
            r == Say(s.(phone := d[..10]), SuccessText, EnterHome(d[..10])))
      && (!Contains(RewriteSignUp(Normalise(raw)), SignUpWord) && 0 < |d| < 10 ==>
            r == RetryStep(s.(phone := d)))
      && (!Contains(RewriteSignUp(Normalise(raw)), SignUpWord) && d == [] ==>
            r == RetryStep(s))
  {
  }

  /** A `"success"` reply runs `handleVoice` on its text; any other status,
      a missing text or a thrown error leads to `retry`. */
  lemma ReplyOutcome(s: Session, i: nat, reply: Reply)
    requires i < |s.tasks| && s.tasks[i].AwaitUpload?
    ensures var s1 := s.(tasks := RemoveAt(s.tasks, i));
      && (reply.Json? && reply.status == "success" && reply.text.Some? ==>
            ReplyStep(s, i, reply) == HandleVoiceStep(s1, reply.text.value))
      && (!(reply.Json? && reply.status == "success" && reply.text.Some?) ==>
            ReplyStep(s, i, reply) == RetryStep(s1))
  {
  }

  /** The active flag guards only `retry` and `startListening`: a reply
      holding ten digits that arrives after the screen lost focus still
      stores the phone and, once "Login successful" has been spoken,
      replaces the screen with HomePage. */
  lemma LateSuccessStillNavigates(s: Session, i: nat, raw: string)
    requires s.recording.None? && i < |s.tasks| && s.tasks[i].AwaitUpload?
    requires !Contains(RewriteSignUp(Normalise(raw)), SignUpWord) && |Digits(raw)| >= 10
    ensures var p := Digits(raw)[..10];
      var r := Run(s, [Blurred, ReplyArrived(i, Json("success", Some(raw))), SpeechFinished]);
      && r.Some? && !r.value.active && r.value.phone == p
      && r.value.effects == s.effects + [Went(Replace(HomePage, map["phone" := StrParam(p)]))]
  {
    var p := Digits(raw)[..10];
    var b := BlurStep(s);
    assert b.speech == [] && b.tasks == s.tasks && !b.active && b.effects == s.effects;
    var s1 := b.(tasks := RemoveAt(b.tasks, i));
    assert Interpret(raw) == FullPhone(p);
    var h := ReplyStep(b, i, Json("success", Some(raw)));
    assert h == Say(s1.(phone := p), SuccessText, EnterHome(p));
    ApplyReply(b, i, Json("success", Some(raw)));
    var f := SpeechDoneStep(h);
    assert f == h.(speech := [], effects := s.effects + [Went(Replace(HomePage, map["phone" := StrParam(p)]))]);
    RunFirst(h, SpeechFinished, []);
    RunFirst(b, ReplyArrived(i, Json("success", Some(raw))), [SpeechFinished]);
    RunFirst(s, Blurred, [ReplyArrived(i, Json("success", Some(raw))), SpeechFinished]);
  }

  /** While the screen listens, a reply whose cleaned text holds `signup`
      says "Opening sign up page" and, once that is spoken, navigates to
      SignUp, whatever digits the reply also holds; the phone is kept. */
  lemma SpokenSignUpNavigates(s: Session, i: nat, raw: string)
    requires s.speech == [] && i < |s.tasks| && s.tasks[i].AwaitUpload?
    requires Contains(RewriteSignUp(Normalise(raw)), SignUpWord)
    ensures var r := Run(s, [ReplyArrived(i, Json("success", Some(raw))), SpeechFinished]);
      && r.Some? && r.value.phone == s.phone && r.value.speech == []
      && r.value.effects == s.effects + [Went(Navigate(SignUp, map[]))]
  {
    var s1 := s.(tasks := RemoveAt(s.tasks, i));
    var h := ReplyStep(s, i, Json("success", Some(raw)));
    assert h == Say(s1, SignUpText, OpenSignUpScreen) by {
      ReplyOutcome(s, i, Json("success", Some(raw)));
      HandleVoiceOutcome(s1, raw);
    }
    assert h.speech == [Utterance(SignUpText, OpenSignUpScreen)];
    ApplyReply(s, i, Json("success", Some(raw)));
    RunFirst(h, SpeechFinished, []);
    RunFirst(s, ReplyArrived(i, Json("success", Some(raw))), [SpeechFinished]);
  }

  /** While the screen listens, a reply holding ten or more digits and no
      sign-up word stores the first ten, says "Login successful" and, once
      that is spoken, replaces the screen with HomePage carrying them. */
  lemma FullPhoneNavigatesHome(s: Session, i: nat, raw: string)
    requires s.speech == [] && i < |s.tasks| && s.tasks[i].AwaitUpload?
    requires !Contains(RewriteSignUp(Normalise(raw)), SignUpWord) && |Digits(raw)| >= 10
    ensures var p := Digits(raw)[..10];
      var r := Run(s, [ReplyArrived(i, Json("success", Some(raw))), SpeechFinished]);
      && r.Some? && r.value.active == s.active && r.value.phone == p && r.value.speech == []
      && r.value.effects == s.effects + [Went(Replace(HomePage, map["phone" := StrParam(p)]))]
  {
    var p := Digits(raw)[..10];
    var s1 := s.(tasks := RemoveAt(s.tasks, i));
    var h := ReplyStep(s, i, Json("success", Some(raw)));
    assert h == Say(s1.(phone := p), SuccessText, EnterHome(p)) by {
      ReplyOutcome(s, i, Json("success", Some(raw)));
      HandleVoiceOutcome(s1, raw);
    }
    assert h.speech == [Utterance(SuccessText, EnterHome(p))];
    ApplyReply(s, i, Json("success", Some(raw)));
    RunFirst(h, SpeechFinished, []);
    RunFirst(s, ReplyArrived(i, Json("success", Some(raw))), [SpeechFinished]);
  }

  /** The same late reply without a full number after the focus was lost:
      the digits heard are stored, but nothing is said and nothing is
      navigated. */
  lemma LatePartialIsSilent(s: Session, i: nat, raw: string)
    requires s.recording.None? && i < |s.tasks| && s.tasks[i].AwaitUpload?
    requires !Contains(RewriteSignUp(Normalise(raw)), SignUpWord) && |Digits(raw)| < 10
    ensures var r := Run(s, [Blurred, ReplyArrived(i, Json("success", Some(raw)))]);
      && r.Some? && r.value.speech == [] && r.value.effects == s.effects
      && r.value.phone == (if Digits(raw) == [] then s.phone else Digits(raw))
  {
    var b := BlurStep(s);
    assert b.speech == [] && b.tasks == s.tasks && !b.active && b.effects == s.effects;
    var s1 := b.(tasks := RemoveAt(b.tasks, i));
    var d := Digits(raw);
    var h := ReplyStep(b, i, Json("success", Some(raw)));
    assert h == ActStep(s1, Interpret(raw));
    if d == [] {
      assert Interpret(raw) == NoMatch;
      assert h == s1;
    } else {
      assert Interpret(raw) == PartialPhone(d);
      assert h == s1.(phone := d);
    }
    ApplyReply(b, i, Json("success", Some(raw)));
    RunFirst(b, ReplyArrived(i, Json("success", Some(raw))), []);
    RunFirst(s, Blurred, [ReplyArrived(i, Json("success", Some(raw)))]);
  }

  // ---------------------------------------------------------------------
  // The screen itself: the refs and state the component keeps, and its
  // handlers.

  /** The stateful view of `Apply`: each handler changes the fields in
      place exactly as the step function of its event changes a `Session`,
      so every property proved about `Apply` and `Run` holds of the screen. */
  class LoginScreen {
    var phone: string
    var active: bool
    var recording: Option<nat>
    var captureTimer: Option<nat>
    var introDelay: Option<nat>
    var timers: map<nat, Timer>
    var nextTimer: nat
    var nextRecording: nat
    var speech: seq<Utterance>
    var tasks: seq<Task>
    var effects: seq<Effect>

    function State(): Session
      reads this
    {
      Session(phone, active, recording, captureTimer, introDelay, timers,
              nextTimer, nextRecording, speech, tasks, effects)
    }

    constructor ()
      ensures State() == Initial()
    {
      phone, active, recording, captureTimer, introDelay := "", true, None, None, None;
      timers, nextTimer, nextRecording := map[], 0, 0;
      speech, tasks, effects := [], [], [];
    }

    method Focus()
      modifies this
      ensures State() == FocusStep(old(State()))
    {
      active := true;
      introDelay := Some(nextTimer);
      timers := timers[nextTimer := IntroDelay];
      nextTimer := nextTimer + 1;
    }

    method Blur()
      modifies this
      ensures State() == BlurStep(old(State()))
    {
      timers := ClearTimer(timers, introDelay);
      StopAll();
    }

    method StopAll()
      modifies this
      ensures State() == StopAllStep(old(State()))
    {
      active := false;
      if recording.Some? {
        tasks := tasks + [AwaitTeardown(recording.value)];
      } else {
        timers := ClearTimer(timers, captureTimer);
        speech := [];
      }
    }

    method TeardownDone(i: nat, ok: bool)
      requires i < |tasks| && tasks[i].AwaitTeardown?
      modifies this
      ensures State() == TeardownStep(old(State()), i, ok)
    {
      tasks := RemoveAt(tasks, i);
      if ok {
        recording := None;
        timers := ClearTimer(timers, captureTimer);
        speech := [];
      }
    }

    method SpeakIntro()
      modifies this
      ensures State() == SpeakIntroStep(old(State()))
    {
      speech := [Utterance(IntroText, Listen)];
    }

    method StartListening()
      modifies this
      ensures State() == StartListeningStep(old(State()))
    {
      if !active {
        return;
      }
      tasks := tasks + [AwaitPermission];
    }

    method PermissionDone(i: nat, p: Permission)
      requires i < |tasks| && tasks[i] == AwaitPermission
      modifies this
      ensures State() == PermissionStep(old(State()), i, p)
    {
      tasks := RemoveAt(tasks, i);
      match p
      case Granted => tasks := tasks + [AwaitAudioMode];
      case Denied => effects := effects + [Alerted(PermissionDeniedText)];
      case PermissionFailed =>
    }

    method AudioModeDone(i: nat, ok: bool)
      requires i < |tasks| && tasks[i] == AwaitAudioMode
      modifies this
      ensures State() == AudioModeStep(old(State()), i, ok)
    {
      tasks := RemoveAt(tasks, i);
      if ok {
        tasks := tasks + [AwaitRecorder];
      }
    }

    method RecorderDone(i: nat, ok: bool)
      requires i < |tasks| && tasks[i] == AwaitRecorder
      modifies this
      ensures State() == RecorderStep(old(State()), i, ok)
    {
      tasks := RemoveAt(tasks, i);
      if ok {
        recording := Some(nextRecording);
        nextRecording := nextRecording + 1;
        captureTimer := Some(nextTimer);
        timers := timers[nextTimer := CaptureTimeout];
        nextTimer := nextTimer + 1;
      }
    }

    method StopRecording()
      modifies this
      ensures State() == StopRecordingStep(old(State()))
    {
      if recording.None? {
        return;
      }
      timers := ClearTimer(timers, captureTimer);
      tasks := tasks + [AwaitStop(recording.value)];
    }

    method StopDone(i: nat, ok: bool, uri: Option<string>)
      requires i < |tasks| && tasks[i].AwaitStop?
      modifies this
      ensures State() == StopStep(old(State()), i, ok, uri)
    {
      tasks := RemoveAt(tasks, i);
      if !ok || recording.None? {
        return;
      }
      recording := None;
      if uri.Some? && uri.value != [] {
        SendToBackend(uri.value);
      }
    }

    method SendToBackend(uri: string)
      modifies this
      ensures State() == SendStep(old(State()), uri)
    {
      tasks := tasks + [AwaitUpload(uri)];
    }

    method UploadDone(i: nat, reply: Reply)
      requires i < |tasks| && tasks[i].AwaitUpload?
      modifies this
      ensures State() == ReplyStep(old(State()), i, reply)
    {
      tasks := RemoveAt(tasks, i);
      if reply.Json? && reply.status == "success" && reply.text.Some? {
        HandleVoice(reply.text.value);
      } else {
        Retry();
      }
    }

    method HandleVoice(raw: string)
      modifies this
      ensures State() == HandleVoiceStep(old(State()), raw)
    {
      Act(Interpret(raw));
    }

    method Act(intent: Intent)
      modifies this
      ensures State() == ActStep(old(State()), intent)
    {
      match intent
      case OpenSignUp =>
        speech := speech + [Utterance(SignUpText, OpenSignUpScreen)];
      case FullPhone(p) =>
        phone := p;
        speech := speech + [Utterance(SuccessText, EnterHome(p))];
      case PartialPhone(d) =>
        phone := d;
        Retry();
      case NoMatch =>
        Retry();
    }

    method Retry()
      modifies this
      ensures State() == RetryStep(old(State()))
    {
      if !active {
        return;
      }
      speech := speech + [Utterance(RepeatText, Listen)];
    }

    method TimerFires(id: nat)
      requires id in timers
      modifies this
      ensures State() == TimerStep(old(State()), id)
    {
      var kind := timers[id];
      timers := timers - {id};
      match kind
      case IntroDelay => SpeakIntro();
      case CaptureTimeout => StopRecording();
    }

    method SpeechDone()
      requires speech != []
      modifies this
      ensures State() == SpeechDoneStep(old(State()))
    {
      var next := speech[0].onDone;
      speech := speech[1..];
      match next
      case Listen => StartListening();
      case OpenSignUpScreen => effects := effects + [Went(Navigate(SignUp, map[]))];
      case EnterHome(p) => effects := effects + [Went(Replace(HomePage, map["phone" := StrParam(p)]))];
    }

    method TypePhone(text: string)
      modifies this
      ensures State() == TypePhoneStep(old(State()), text)
    {
      phone := if |text| <= 10 then text else text[..10];
    }

    method TapSignUp()
      modifies this
      ensures State() == TapSignUpStep(old(State()))
    {
      effects := effects + [Went(Navigate(SignUp, map[]))];
    }
  }
}
