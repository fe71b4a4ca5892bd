/** The decision rules of the Echo backend (backend_ml/app.py), taken out of
    its HTTP handlers: the user preferences and the face-role table (global
    state the handlers update), the once-a-day sleep nudge, the voice
    command's intent selection and replies, the upload endpoint's file
    classification, and the text truncation and emotion-response rules.

    Speech recognition, face recognition, emotion detection, speech output,
    the JSON files and the clock are outside the model: their results are
    parameters. */
module Backend {
  import opened Base
  import opened Text

  // ---------------------------------------------------------------------------
  // Preferences
  // ---------------------------------------------------------------------------

  /** `USER_PREFS` (its constant "time_zone_note" aside). */
  datatype Prefs = Prefs(username: string, sleepHour: int, sleepEnabled: bool)

  /** The body of `/set-prefs`: each field is optional. */
  datatype PrefsRequest = PrefsRequest(username: Option<string>, sleepHour: Option<int>, sleepEnabled: Option<bool>)

  function DefaultPrefs(): (p: Prefs)
    ensures p.username == "mate" && p.sleepHour == 22 && p.sleepEnabled
  {
    Prefs("mate", 22, true)
  }

  /** `load_prefs` at start-up: `USER_PREFS.update(...)` with whatever the
      preferences file holds, the hour included, without any check. */
  function LoadPrefs(saved: PrefsRequest): (p: Prefs)
    ensures p.username == if saved.username.Some? then saved.username.value else "mate"
    ensures p.sleepHour == if saved.sleepHour.Some? then saved.sleepHour.value else 22
    ensures p.sleepEnabled == if saved.sleepEnabled.Some? then saved.sleepEnabled.value else true
  {
    var d := DefaultPrefs();
    Prefs(if saved.username.Some? then saved.username.value else d.username,
          if saved.sleepHour.Some? then saved.sleepHour.value else d.sleepHour,
          if saved.sleepEnabled.Some? then saved.sleepEnabled.value else d.sleepEnabled)
  }

  /** Loading differs from `/set-prefs` on the defaults only in the missing
      hour check: the two agree whenever the saved hour is a clock hour, and
      with no file the defaults stay. */
  lemma LoadPrefsLaws(saved: PrefsRequest)
    ensures LoadPrefs(PrefsRequest(None, None, None)) == DefaultPrefs()
    ensures (0 <= LoadPrefs(saved).sleepHour <= 23) <==>
            (saved.sleepHour.None? || 0 <= saved.sleepHour.value <= 23)
    ensures saved.sleepHour.None? || 0 <= saved.sleepHour.value <= 23 ==>
            LoadPrefs(saved) == ApplyPrefs(DefaultPrefs(), saved)
  {
  }

  /** `set_prefs`: a supplied name or switch replaces the stored one; a
      supplied hour replaces it only when it is a clock hour 0..23. */
  function ApplyPrefs(p: Prefs, req: PrefsRequest): (r: Prefs)
    ensures r.username == if req.username.Some? then req.username.value else p.username
    ensures r.sleepHour == if req.sleepHour.Some? && 0 <= req.sleepHour.value <= 23 then req.sleepHour.value else p.sleepHour
    ensures r.sleepEnabled == if req.sleepEnabled.Some? then req.sleepEnabled.value else p.sleepEnabled
  {
    var p1 := if req.username.Some? then p.(username := req.username.value) else p;
    var p2 := match req.sleepHour
      case Some(hour) => if 0 <= hour <= 23 then p1.(sleepHour := hour) else p1
      case None => p1;
    if req.sleepEnabled.Some? then p2.(sleepEnabled := req.sleepEnabled.value) else p2
  }

  /** The stored sleep hour is always a clock hour, and sending the same
      request twice is the same as sending it once. */
  lemma ApplyPrefsLaws(p: Prefs, req: PrefsRequest)
    ensures 0 <= p.sleepHour <= 23 ==> 0 <= ApplyPrefs(p, req).sleepHour <= 23
    ensures ApplyPrefs(ApplyPrefs(p, req), req) == ApplyPrefs(p, req)
    ensures ApplyPrefs(p, PrefsRequest(None, None, None)) == p
  {
  }

  // ---------------------------------------------------------------------------
  // Face roles
  // ---------------------------------------------------------------------------

  /** `roles.get(faceLabel, "friend")`. */
  function RoleOf(roles: map<string, string>, faceLabel: string): (r: string)
    ensures faceLabel in roles ==> r == roles[faceLabel]
    ensures faceLabel !in roles ==> r == "friend"
  {
    if faceLabel in roles then roles[faceLabel] else "friend"
  }

  // ---------------------------------------------------------------------------
  // The sleep nudge
  // ---------------------------------------------------------------------------

  /** The gate of `sleep_reminder_job`: enabled, the current hour is the
      sleep hour, and no nudge was sent today. */
  predicate NudgeDue(p: Prefs, lastNudge: Option<int>, hour: int, today: int) {
    p.sleepEnabled && hour == p.sleepHour && lastNudge != Some(today)
  }

  /** "Hey {username}, it’s time to sleep." */
  function SleepMessage(username: string): (m: string)
    ensures |m| == |username| + 25
    ensures m[..4] == "Hey " && m[4..4 + |username|] == username
    ensures m[4 + |username|..] == ", it\U{2019}s time to sleep."
  {
    "Hey " + username + ", it\U{2019}s time to sleep."
  }

  /** The number of nudges the job sends when it runs at each hour of
      `hours` within one day, starting from the recorded `lastNudge`. */
  function NudgesOn(p: Prefs, lastNudge: Option<int>, hours: seq<int>, today: int): nat
    decreases |hours|
  {
    if hours == [] then 0
    else if NudgeDue(p, lastNudge, hours[0], today) then 1 + NudgesOn(p, Some(today), hours[1..], today)
    else NudgesOn(p, lastNudge, hours[1..], today)
  }

  /** However often the job runs in a day, it nudges at most once; it
      nudges exactly when it is enabled, has not nudged yet today and runs
      at least once during the sleep hour. */
  lemma {:induction false} AtMostOncePerDay(p: Prefs, lastNudge: Option<int>, hours: seq<int>, today: int)
    ensures NudgesOn(p, lastNudge, hours, today) <= 1
    ensures NudgesOn(p, lastNudge, hours, today) == 1 <==>
      p.sleepEnabled && lastNudge != Some(today) && p.sleepHour in hours
    decreases |hours|
  {
    if hours != [] {
      AtMostOncePerDay(p, lastNudge, hours[1..], today);
      AtMostOncePerDay(p, Some(today), hours[1..], today);
      assert hours == [hours[0]] + hours[1..];
    }
  }

  // ---------------------------------------------------------------------------
  // Voice commands
  // ---------------------------------------------------------------------------

  datatype Intent = WhoIsThis | TimeQuery | NameQuery | UnknownIntent

  /** `audio_to_text(...).lower().strip()`. */
  function CommandText(transcript: string): (r: string)
    ensures |r| <= |transcript|
    ensures NoCapitals(r)
    ensures r != [] ==> !IsPySpace(r[0]) && !IsPySpace(r[|r| - 1])
    ensures StrippedOf(Lower(transcript), IsPySpace, r)
  {
    var lowered := Lower(transcript);
    assert NoCapitals(lowered);
    TrimKeepsNoCapitals(lowered, IsPySpace);
    var r := Trim(lowered, IsPySpace);
    assert r != [] ==> !IsPySpace(r[0]) && !IsPySpace(r[|r| - 1]);
    r
  }

  /** The contract of `CommandText` pins its value: the lowered transcript
      with the whitespace at both ends, and only that, removed. */
  lemma CommandTextIsDetermined(transcript: string, r: string)
    requires StrippedOf(Lower(transcript), IsPySpace, r)
    requires r != [] ==> !IsPySpace(r[0]) && !IsPySpace(r[|r| - 1])
    ensures r == CommandText(transcript)
  {
    TrimIsTheStrippedSlice(Lower(transcript), IsPySpace, r);
  }

  predicate AsksWho(cmd: string) {
    Contains(cmd, "who is this") || Contains(cmd, "who's this") || Contains(cmd, "who am i looking at")
  }

  predicate AsksTime(cmd: string) {
    Contains(cmd, "what time is it") || Contains(cmd, "current time") || Contains(cmd, "tell me the time")
  }

  predicate AsksName(cmd: string) {
    Contains(cmd, "what's my name") || Contains(cmd, "what is my name")
  }

  /** The branch `voice_command` takes, tried in this order. */
  function ClassifyIntent(cmd: string): Intent {
    if AsksWho(cmd) then WhoIsThis
    else if AsksTime(cmd) then TimeQuery
    else if AsksName(cmd) then NameQuery
    else UnknownIntent
  }

  /** A phrase found in a text is found in any text around it. */
  lemma ContainsWithin(a: string, s: string, b: string, needle: string)
    requires Contains(s, needle)
    ensures Contains(a + s + b, needle)
  {
    var i :| OccursAt(s, needle, i);
    assert (a + s + b)[|a| + i..|a| + i + |needle|] == s[i..i + |needle|];
    assert OccursAt(a + s + b, needle, |a| + i);
  }

  /** The fixed priority: words said before or after never turn a "who is
      this" question into another intent, and a time question is answered
      as such unless a "who" phrase is added. */
  lemma IntentPriority(a: string, cmd: string, b: string)
    ensures ClassifyIntent(cmd) == WhoIsThis ==> ClassifyIntent(a + cmd + b) == WhoIsThis
    ensures ClassifyIntent(cmd) == TimeQuery && !AsksWho(a + cmd + b) ==> ClassifyIntent(a + cmd + b) == TimeQuery
    ensures ClassifyIntent(cmd) == NameQuery && ClassifyIntent(a + cmd + b) != NameQuery ==>
      AsksWho(a + cmd + b) || AsksTime(a + cmd + b)
  {
    if AsksWho(cmd) {
      if Contains(cmd, "who is this") {
        ContainsWithin(a, cmd, b, "who is this");
      } else if Contains(cmd, "who's this") {
        ContainsWithin(a, cmd, b, "who's this");
      } else {
        ContainsWithin(a, cmd, b, "who am i looking at");
      }
    } else if AsksTime(cmd) {
      if Contains(cmd, "what time is it") {
        ContainsWithin(a, cmd, b, "what time is it");
      } else if Contains(cmd, "current time") {
        ContainsWithin(a, cmd, b, "current time");
      } else {
        ContainsWithin(a, cmd, b, "tell me the time");
      }
    } else if AsksName(cmd) {
      if Contains(cmd, "what's my name") {
        ContainsWithin(a, cmd, b, "what's my name");
      } else {
        ContainsWithin(a, cmd, b, "what is my name");
      }
    }
  }

  /** Python truthiness of an optional string. */
  predicate Truthy(s: Option<string>) {
    s.Some? && s.value != ""
  }

  /** What `voice_command` returns (the emotion of an unknown command is a
      foreign call and is left out). */
  datatype VoiceReply =
    | NeedImage(message: string)
    | Identified(recognized: Option<string>, role: Option<string>, message: string)
    | TimeReply(message: string, time: string)
    | NameReply(message: string, username: string)
    | Unrecognised(transcript: string)

  function IntentOf(r: VoiceReply): Intent {
    match r
    case NeedImage(_) => WhoIsThis
    case Identified(_, _, _) => WhoIsThis
    case TimeReply(_, _) => TimeQuery
    case NameReply(_, _) => NameQuery
    case Unrecognised(_) => UnknownIntent
  }

  /** The sentence spoken for a recognition result. */
  function IdentifyMessage(faceLabel: Option<string>, role: Option<string>): (m: string)
    ensures Truthy(faceLabel) ==>
      (|m| > 8 + |faceLabel.value| && m[..8] == "This is " && m[8..8 + |faceLabel.value|] == faceLabel.value)
    ensures Truthy(faceLabel) ==>
      m[8 + |faceLabel.value|..] == (if Truthy(role) then ", your " + role.value + "." else ".")
    ensures !Truthy(faceLabel) ==> m == "Sorry, I do not recognize this person."
  {
    if Truthy(faceLabel) then
      "This is " + faceLabel.value + (if Truthy(role) then ", your " + role.value + "." else ".")
    else "Sorry, I do not recognize this person."
  }

  // ---------------------------------------------------------------------------
  // Uploads
  // ---------------------------------------------------------------------------

  /** The text after the last `c` of `s` (all of `s` when there is none):
      Python's `s.split(c)[-1]`. */
  function AfterLast(s: string, c: char): (r: string)
    ensures c !in r
    ensures |r| <= |s| && r == s[|s| - |r|..]
    ensures c !in s ==> r == s
  {
    if s == [] then []
    else if s[|s| - 1] == c then []
    else
      var r := AfterLast(s[..|s| - 1], c);
      assert s[..|s| - 1][|s| - 1 - |r|..] + [s[|s| - 1]] == s[|s| - 1 - |r|..];
      r + [s[|s| - 1]]
  }

  /** `file.filename.lower().split('.')[-1] if '.' in file.filename else ''`. */
  function FileExtension(filename: string): (r: string)
    ensures '.' !in r
    ensures '.' !in filename ==> r == ""
  {
    if '.' in filename then
      AfterLast(Lower(filename), '.')
    else ""
  }

  lemma LowerKeepsDots(s: string)
    ensures '.' in Lower(s) <==> '.' in s
  {
    if '.' in s {
      var i :| 0 <= i < |s| && s[i] == '.';
      assert Lower(s)[i] == '.';
    }
    if '.' in Lower(s) {
      var i :| 0 <= i < |s| && Lower(s)[i] == '.';
      assert s[i] == '.';
    }
  }

  lemma LowerConcat(a: string, b: string)
    ensures Lower(a + b) == Lower(a) + Lower(b)
  {
  }

  /** `split` on a separator takes exactly the part after its last
      occurrence. */
  lemma {:induction false} AfterLastOfSplit(x: string, c: char, y: string)
    requires c !in y
    ensures AfterLast(x + [c] + y, c) == y
    decreases |y|
  {
    var u := x + [c] + y;
    if y != [] {
      var y' := y[..|y| - 1];
      assert u[..|u| - 1] == x + [c] + y';
      assert AfterLast(u, c) == AfterLast(x + [c] + y', c) + [y[|y| - 1]];
      AfterLastOfSplit(x, c, y');
      assert y' + [y[|y| - 1]] == y;
    }
  }

  /** A name made of a stem, a dot and a dot-free extension has that
      extension, in lower case. */
  lemma ExtensionOfName(stem: string, ext: string)
    requires '.' !in ext
    ensures FileExtension(stem + "." + ext) == Lower(ext)
  {
    var name := stem + "." + ext;
    assert name[|stem|] == '.';
    LowerConcat(stem + ".", ext);
    LowerConcat(stem, ".");
    assert Lower(".") == ['.'];
    LowerKeepsDots(ext);
    AfterLastOfSplit(Lower(stem), '.', Lower(ext));
  }

  const ImageExtensions: seq<string> := ["jpg", "jpeg", "png", "bmp", "gif", "webp"]
  const AudioExtensions: seq<string> := ["wav", "mp3", "m4a", "flac", "ogg", "aac"]
  const VideoExtensions: seq<string> := ["mp4", "avi", "mov", "mkv", "wmv", "flv", "webm"]
  const TextExtensions: seq<string> := ["txt", "md", "json", "csv"]

  datatype ContentKind = ImageFile | AudioFile | VideoFile | TextFile | UnknownFile

  /** The branch `upload_universal` takes: image, then audio, then video,
      then text, each by extension or by a word in the MIME type. */
  function Classify(ext: string, mime: string): ContentKind {
    if ext in ImageExtensions || Contains(mime, "image") then ImageFile
    else if ext in AudioExtensions || Contains(mime, "audio") then AudioFile
    else if ext in VideoExtensions || Contains(mime, "video") then VideoFile
    else if ext in TextExtensions || Contains(mime, "text") then TextFile
    else UnknownFile
  }

  /** No extension is in two lists, so without a MIME type the extension
      alone decides, and the four lists are all that is recognised. */
  lemma ClassifyByExtension(ext: string)
    ensures Classify(ext, "") == ImageFile <==> ext in ImageExtensions
    ensures Classify(ext, "") == AudioFile <==> ext in AudioExtensions
    ensures Classify(ext, "") == VideoFile <==> ext in VideoExtensions
    ensures Classify(ext, "") == TextFile <==> ext in TextExtensions
    ensures Classify(ext, "") == UnknownFile <==>
      ext !in ImageExtensions + AudioExtensions + VideoExtensions + TextExtensions
  {
  }

  /** An image MIME type wins over any extension; a known image extension
      wins over any MIME type. */
  lemma ImageWins(ext: string, mime: string)
    ensures Contains(mime, "image") || ext in ImageExtensions ==> Classify(ext, mime) == ImageFile
    ensures Classify(ext, mime) == ImageFile ==> Contains(mime, "image") || ext in ImageExtensions
  {
  }

  // ---------------------------------------------------------------------------
  // Text rules
  // ---------------------------------------------------------------------------

  /** `text[:limit] + "..." if len(text) > limit else text`. */
  function Truncate(text: string, limit: nat): (r: string)
    ensures |text| <= limit ==> r == text
    ensures |text| > limit ==> |r| == limit + 3 && r[..limit] == text[..limit] && r[limit..] == "..."
  {
    if |text| > limit then text[..limit] + "..." else text
  }

  /** Truncating a preview again leaves it as it is. */
  lemma TruncateIdempotent(text: string, limit: nat)
    ensures Truncate(Truncate(text, limit), limit) == Truncate(text, limit)
  {
    if |text| > limit {
      var r := Truncate(text, limit);
      assert r[..limit] + "..." == r;
    }
  }

  /** The `text_preview` of an uploaded text file. */
  function TextPreview(text: string): (r: string)
    ensures |r| <= 203
    ensures |text| <= 200 ==> r == text
    ensures |text| > 200 ==> |r| == 203 && r[..200] == text[..200] && r[200..] == "..."
  {
    Truncate(text, 200)
  }

  /** The `input.text` echoed by `/analyze-text`. */
  function EchoedInput(text: string): (r: string)
    ensures |r| <= 103
    ensures |text| <= 100 ==> r == text
    ensures |text| > 100 ==> |r| == 103 && r[..100] == text[..100] && r[100..] == "..."
  {
    Truncate(text, 100)
  }

  const FallbackResponse := "I'm here with you."

  /** `response_map` of `/analyze-text`. */
  const ResponseMap: map<string, string> := map[
    "anxious" := "You sound anxious. It's okay, you're safe and not alone.",
    "frustrated" := "You seem frustrated. Take your time, I'm here to help.",
    "calm" := "That's good to hear. Let me know if you need anything.",
    "exhausted" := "You might need rest. You're doing okay.",
    "disoriented" := "It looks like you're unsure where you are. Let me remind you, you're at home and you're safe.",
    "neutral" := "I'm with you. Everything is okay."]

  /** `response_map.get(emotion, "I'm here with you.")`: the fallback is
      answered exactly for the emotions the map does not list. */
  function ResponseFor(emotion: string): (r: string)
    ensures r == FallbackResponse <==>
      emotion !in {"anxious", "frustrated", "calm", "exhausted", "disoriented", "neutral"}
  {
    if emotion in ResponseMap then ResponseMap[emotion] else FallbackResponse
  }

  // ---------------------------------------------------------------------------
  // The server's global state
  // ---------------------------------------------------------------------------

  class Server {
    /** `USER_PREFS`. */
    var prefs: Prefs
    /** The contents of the roles file. */
    var roles: map<string, string>
    /** `_last_sleep_nudge_date`, as a day number. */
    var lastNudge: Option<int>

    /** The stored sleep hour is a clock hour: `/set-prefs` keeps it one,
        but a preferences file loaded at start-up may hold any hour. */
    ghost predicate Valid()
      reads this
    {
      0 <= prefs.sleepHour <= 23
    }

    /** Start-up: the defaults updated by the preferences file `savedPrefs`
        (`load_prefs`), the roles file `savedRoles`, and no nudge yet. */
    constructor (savedPrefs: PrefsRequest, savedRoles: map<string, string>)
      ensures prefs == LoadPrefs(savedPrefs) && roles == savedRoles && lastNudge == None
      ensures Valid() <==> savedPrefs.sleepHour.None? || 0 <= savedPrefs.sleepHour.value <= 23
    {
      prefs, roles, lastNudge := LoadPrefs(savedPrefs), savedRoles, None;
    }

    /** `/set-prefs`. */
    method SetPrefs(req: PrefsRequest)
      modifies this
      ensures prefs == ApplyPrefs(old(prefs), req)
      ensures old(Valid()) ==> Valid()
      ensures req.sleepHour.Some? && 0 <= req.sleepHour.value <= 23 ==> Valid()
      ensures roles == old(roles) && lastNudge == old(lastNudge)
    {
      if req.username.Some? {
        prefs := prefs.(username := req.username.value);
      }
      if req.sleepHour.Some? {
        var hour := req.sleepHour.value;
        if 0 <= hour <= 23 {
          prefs := prefs.(sleepHour := hour);
        }
      }
      if req.sleepEnabled.Some? {
        prefs := prefs.(sleepEnabled := req.sleepEnabled.value);
      }
    }

    /** `get_label_role`. */
    function GetLabelRole(faceLabel: string): (r: string)
      reads this
      ensures faceLabel in roles ==> r == roles[faceLabel]
      ensures faceLabel !in roles ==> r == "friend"
    {
      RoleOf(roles, faceLabel)
    }

    /** `set_label_role`: afterwards the label has that role and every
        other label keeps its own. */
    method SetLabelRole(faceLabel: string, role: string)
      modifies this
      ensures roles == old(roles)[faceLabel := role]
      ensures GetLabelRole(faceLabel) == role
      ensures forall other :: other != faceLabel ==> GetLabelRole(other) == old(GetLabelRole(other))
      ensures prefs == old(prefs) && lastNudge == old(lastNudge)
    {
      roles := roles[faceLabel := role];
    }

    /** One run of `sleep_reminder_job` at `hour` on day `today`: `nudge` is
        the message spoken and broadcast, if any. */
    method SleepReminderJob(hour: int, today: int) returns (nudge: Option<string>)
      modifies this
      ensures nudge == if NudgeDue(old(prefs), old(lastNudge), hour, today) then Some(SleepMessage(prefs.username)) else None
      ensures lastNudge == if nudge.Some? then Some(today) else old(lastNudge)
      ensures prefs == old(prefs) && roles == old(roles)
    {
      nudge := None;
      if !prefs.sleepEnabled {
        return;
      }
      if hour == prefs.sleepHour {
        if lastNudge != Some(today) {
          nudge := Some(SleepMessage(prefs.username));
          lastNudge := Some(today);
        }
      }
    }

    /** `voice_command` once the audio is transcribed: `image` is whether
        an image came with it, `recognized` what face recognition returns
        for it, `clock` the current time as "%I:%M %p". */
    function VoiceCommand(transcript: string, image: bool, recognized: Option<string>, clock: string): (r: VoiceReply)
      reads this
      ensures IntentOf(r) == ClassifyIntent(CommandText(transcript))
      ensures r.NeedImage? <==> IntentOf(r) == WhoIsThis && !image
      ensures r.Identified? ==> r.recognized == (if Truthy(recognized) then recognized else None)
      ensures r.Identified? ==> r.role == (if Truthy(recognized) then Some(GetLabelRole(recognized.value)) else None)
      ensures r.NameReply? ==> r.username == prefs.username
      ensures r.Unrecognised? ==> r.transcript == CommandText(transcript)
      ensures r.NeedImage? ==> r.message == "I need an image to answer who this is."
      ensures r.Identified? ==> r.message == IdentifyMessage(recognized, r.role)
      ensures r.TimeReply? ==> r.message == "It\U{2019}s " + clock + "." && r.time == clock
      ensures r.NameReply? ==> r.message == "Your name is " + prefs.username + "."
    {
      Answer(CommandText(transcript), image, recognized, clock)
    }

    /** The reply to the normalised command `cmd`. */
    function Answer(cmd: string, image: bool, recognized: Option<string>, clock: string): (r: VoiceReply)
      reads this
      ensures IntentOf(r) == ClassifyIntent(cmd)
      ensures r.NeedImage? <==> IntentOf(r) == WhoIsThis && !image
      ensures r.Identified? ==> r.recognized == (if Truthy(recognized) then recognized else None)
      ensures r.Identified? ==> r.role == (if Truthy(recognized) then Some(GetLabelRole(recognized.value)) else None)
      ensures r.NameReply? ==> r.username == prefs.username
      ensures r.Unrecognised? ==> r.transcript == cmd
      ensures r.NeedImage? ==> r.message == "I need an image to answer who this is."
      ensures r.Identified? ==> r.message == IdentifyMessage(recognized, r.role)
      ensures r.TimeReply? ==> r.message == "It\U{2019}s " + clock + "." && r.time == clock
      ensures r.NameReply? ==> r.message == "Your name is " + prefs.username + "."
    {
      match ClassifyIntent(cmd)
      case WhoIsThis =>
        if !image then NeedImage("I need an image to answer who this is.")
        else
          var role := if Truthy(recognized) then Some(GetLabelRole(recognized.value)) else None;
          Identified(if Truthy(recognized) then recognized else None, role, IdentifyMessage(recognized, role))
      case TimeQuery => TimeReply("It\U{2019}s " + clock + ".", clock)
      case NameQuery => NameReply("Your name is " + prefs.username + ".", prefs.username)
      case UnknownIntent => Unrecognised(cmd)
    }

    /** Without an image, a "who is this" command does not depend on what
        face recognition would have said. */
    lemma NoImageNoRecognition(transcript: string, a: Option<string>, b: Option<string>, clock: string)
      ensures ClassifyIntent(CommandText(transcript)) == WhoIsThis ==>
                VoiceCommand(transcript, false, a, clock) == VoiceCommand(transcript, false, b, clock)
                == NeedImage("I need an image to answer who this is.")
    {
    }
  }

  /** After a role is set for a label, a "who is this" command with a
      picture of that person names the role. */
  lemma SetRoleThenAsk(roles: map<string, string>, faceLabel: string, role: string)
    requires faceLabel != "" && role != ""
    ensures IdentifyMessage(Some(faceLabel), Some(RoleOf(roles[faceLabel := role], faceLabel)))
      == "This is " + faceLabel + ", your " + role + "."
  {
  }
}
