/**
 * `sfx add`: the guards an alias and a YouTube address must pass, in the order
 * they are checked, the 30-second length rule, and the insert into the sounds map.
 */
module SfxAdd {
  import opened Wrappers
  import opened SfxTypes
  import opened SfxCommon
  import opened GuildDb

  /** `SfxAddParams`: every field may be missing. */
  datatype AddParams = AddParams(alias: Option<string>, url: Option<string>, startTime: Option<string>, endTime: Option<string>)

  /** Why an add is refused; the last four arise while fetching and saving the video. */
  datatype AddError =
    | MissingAliasOrUrl
    | StartAfterEnd
    | ReservedAlias(alias: string)
    | InvalidAlias(alias: string)
    | AlreadyExists(alias: string)
    | UnsupportedUrl(url: string)
    | TooLong
    | LongerThanVideo
    | FetchFailed
    | SaveFailed

  const RESERVED_ALIAS: seq<string> := [RANDOM]
  const MAX_SFX_LENGTH_SECONDS := 30

  /** A JavaScript value that is set and not the empty string. */
  predicate Given(s: Option<string>) {
    s.Some? && s.value != ""
  }

  /** A number of seconds that is set and not zero, as `if (seconds)` tests it. */
  predicate Truthy(seconds: Option<int>) {
    seconds.Some? && seconds.value != 0
  }

  /** The seconds a time text stands for, through `momentParse`; `undefined` when no time was given. */
  function Seconds(time: Option<string>, momentParse: string -> int): Option<int> {
    if Given(time) then Some(momentParse(time.value)) else None
  }

  /** The length rule applied to the fetched video's length. */
  function CheckLength(videoLength: int, start: Option<int>, end: Option<int>): Result<(), AddError> {
    if Truthy(start) then
      if videoLength - start.value > MAX_SFX_LENGTH_SECONDS then
        if !Truthy(end) || end.value - start.value > MAX_SFX_LENGTH_SECONDS then Err(TooLong)
        else if videoLength < end.value - start.value then Err(LongerThanVideo)
        else Ok(())
      else Ok(())
    else if videoLength > MAX_SFX_LENGTH_SECONDS then Err(TooLong)
    else Ok(())
  }

  /**
   * The length of the file `saveAudio` writes. It is called with the start and
   * the end, but takes only the directory and streams the whole video, so
   * both are dropped.
   */
  function SavedLength(videoLength: int, start: Option<int>, end: Option<int>): int {
    videoLength
  }

  /** Without a start time the length rule does bound what is saved: at most 30 seconds. */
  lemma AcceptedUntrimmedIsShort(videoLength: int, start: Option<int>, end: Option<int>)
    requires CheckLength(videoLength, start, end).Ok?
    requires !Truthy(start)
    ensures SavedLength(videoLength, start, end) <= MAX_SFX_LENGTH_SECONDS
  {
  }

  /**
   * As written, a start time lets a longer video through: the rule judges the
   * part after the start, and the whole video is saved.
   */
  lemma StartTimeSavesWholeVideo(videoLength: int, start: int)
    requires 0 < start && MAX_SFX_LENGTH_SECONDS < videoLength <= start + MAX_SFX_LENGTH_SECONDS
    ensures CheckLength(videoLength, Some(start), None).Ok?
    ensures SavedLength(videoLength, Some(start), None) == videoLength > MAX_SFX_LENGTH_SECONDS
  {
  }

  /** As written, a start and an end within 30 seconds accept a video of any length, which is saved whole. */
  lemma EndTimeSavesWholeVideo(videoLength: int, start: int, end: int)
    requires 0 < start < end && end - start <= MAX_SFX_LENGTH_SECONDS && start + MAX_SFX_LENGTH_SECONDS < videoLength
    ensures CheckLength(videoLength, Some(start), Some(end)).Ok?
    ensures SavedLength(videoLength, Some(start), Some(end)) == videoLength > MAX_SFX_LENGTH_SECONDS
  {
  }

  /** A 59-second video from 0:29, and a 600-second one from 0:10 to 0:20, are both accepted and stored whole. */
  lemma LongSoundsAccepted()
    ensures CheckLength(59, Some(29), None).Ok? && SavedLength(59, Some(29), None) == 59
    ensures CheckLength(600, Some(10), Some(20)).Ok? && SavedLength(600, Some(10), Some(20)) == 600
  {
    StartTimeSavesWholeVideo(59, 29);
    EndTimeSavesWholeVideo(600, 10, 20);
  }

  /**
   * The clip the length rule is written for, as a `saveAudio` that trims would
   * save it: from the start (else 0) to the end (else the video's end).
   */
  function ClipLength(videoLength: int, start: Option<int>, end: Option<int>): int {
    var from := if Truthy(start) then start.value else 0;
    var to := if Truthy(end) && end.value < videoLength then end.value else videoLength;
    to - from
  }

  /** What the length rule is for: a trimmed clip it accepts is at most 30 seconds long. */
  lemma AcceptedClipIsShort(videoLength: int, start: Option<int>, end: Option<int>)
    requires CheckLength(videoLength, start, end).Ok?
    ensures ClipLength(videoLength, start, end) <= MAX_SFX_LENGTH_SECONDS
  {
  }

  /**
   * The three cases of the length rule: without a start only the video's length
   * counts; with a start, a remainder over 30 seconds needs an end within 30
   * seconds of the start and within the video's length; otherwise anything goes.
   */
  lemma LengthRuleCases(videoLength: int, start: Option<int>, end: Option<int>)
    ensures !Truthy(start) ==> (CheckLength(videoLength, start, end).Ok? <==> videoLength <= MAX_SFX_LENGTH_SECONDS)
    ensures Truthy(start) && videoLength - start.value > MAX_SFX_LENGTH_SECONDS ==>
              (CheckLength(videoLength, start, end).Ok? <==>
                 Truthy(end) && end.value - start.value <= MAX_SFX_LENGTH_SECONDS && end.value - start.value <= videoLength)
    ensures Truthy(start) && videoLength - start.value <= MAX_SFX_LENGTH_SECONDS ==> CheckLength(videoLength, start, end).Ok?
  {
  }

  /**
   * `sfxAdd` up to its last step. `validYoutube` is what `checkUrl` answers,
   * `videoLength` the fetched video's length (`None` when fetching fails),
   * `savedPath` the file written (`None` when saving fails). `Ok` carries the
   * alias and the path to store.
   */
  function AddOutcome(sounds: map<string, string>, params: AddParams, momentParse: string -> int,
                      validYoutube: bool, videoLength: Option<int>, savedPath: Option<string>): Result<(string, string), AddError>
  {
    if !Given(params.alias) || !Given(params.url) then Err(MissingAliasOrUrl)
    else
      var alias := params.alias.value;
      var start := Seconds(params.startTime, momentParse);
      var end := Seconds(params.endTime, momentParse);
      if Truthy(start) && Truthy(end) && start.value > end.value then Err(StartAfterEnd)
      else if alias in RESERVED_ALIAS then Err(ReservedAlias(alias))
      else if !IsValidSfxAlias(alias) then Err(InvalidAlias(alias))
      else if SfxExists(sounds, alias) then Err(AlreadyExists(alias))
      else if !validYoutube then Err(UnsupportedUrl(params.url.value))
      else if videoLength.None? then Err(FetchFailed)
      else match CheckLength(videoLength.value, start, end)
        case Err(e) => Err(e)
        case Ok(_) =>
          if savedPath.None? then Err(SaveFailed) else Ok((alias, savedPath.value))
  }

  /** `sfxAdd`'s effect on the sounds map: the saved file under the new alias, or nothing. */
  function SfxAdd(sounds: map<string, string>, params: AddParams, momentParse: string -> int,
                  validYoutube: bool, videoLength: Option<int>, savedPath: Option<string>): (r: (map<string, string>, Result<(string, string), AddError>))
    ensures r.1.Err? ==> r.0 == sounds
    ensures r.1.Ok? ==> r.0 == sounds[r.1.value.0 := r.1.value.1] && r.1.value.0 !in sounds
  {
    var outcome := AddOutcome(sounds, params, momentParse, validYoutube, videoLength, savedPath);
    match outcome
    case Err(_) => (sounds, outcome)
    case Ok((alias, path)) => (sounds[alias := path], outcome)
  }

  /**
   * An add that succeeds stores exactly one new, valid, non-reserved alias,
   * the given one, mapped to the saved file; every other alias keeps its file.
   */
  lemma AddSucceeds(sounds: map<string, string>, params: AddParams, momentParse: string -> int,
                    validYoutube: bool, videoLength: Option<int>, savedPath: Option<string>)
    requires SfxAdd(sounds, params, momentParse, validYoutube, videoLength, savedPath).1.Ok?
    ensures
      var (after, outcome) := SfxAdd(sounds, params, momentParse, validYoutube, videoLength, savedPath);
      params.alias.Some? && outcome.value.0 == params.alias.value && savedPath == Some(outcome.value.1) &&
      params.alias.value != RANDOM && IsValidSfxAlias(params.alias.value) && validYoutube &&
      after.Keys == sounds.Keys + {params.alias.value} &&
      (forall a :: a in sounds ==> after[a] == sounds[a])
  {
  }

  /** Without an alias or a url nothing else is looked at and the sounds map stays as it was. */
  lemma MissingInputRejected(sounds: map<string, string>, params: AddParams, momentParse: string -> int,
                             validYoutube: bool, videoLength: Option<int>, savedPath: Option<string>)
    requires !Given(params.alias) || !Given(params.url)
    ensures SfxAdd(sounds, params, momentParse, validYoutube, videoLength, savedPath) == (sounds, Err(MissingAliasOrUrl))
  {
  }

  /**
   * The guards in their order: once alias and url are given and the start is
   * not after the end, `random` is refused whatever else holds, then an invalid
   * alias, then an existing one (whose file stays), then an unsupported url.
   */
  lemma AddGuardOrder(sounds: map<string, string>, params: AddParams, momentParse: string -> int,
                      validYoutube: bool, videoLength: Option<int>, savedPath: Option<string>)
    requires Given(params.alias) && Given(params.url)
    requires
      var start := Seconds(params.startTime, momentParse);
      var end := Seconds(params.endTime, momentParse);
      !(Truthy(start) && Truthy(end) && start.value > end.value)
    ensures
      var alias := params.alias.value;
      var outcome := AddOutcome(sounds, params, momentParse, validYoutube, videoLength, savedPath);
      (alias == RANDOM ==> outcome == Err(ReservedAlias(alias))) &&
      (alias != RANDOM && !IsValidSfxAlias(alias) ==> outcome == Err(InvalidAlias(alias))) &&
      (alias != RANDOM && IsValidSfxAlias(alias) && alias in sounds ==> outcome == Err(AlreadyExists(alias))) &&
      (alias != RANDOM && IsValidSfxAlias(alias) && alias !in sounds && !validYoutube ==>
         outcome == Err(UnsupportedUrl(params.url.value)))
  {
  }

  /** A start after the end is refused only when both are non-zero: a zero start or end skips the check. */
  lemma StartAfterEndNeedsBoth(sounds: map<string, string>, params: AddParams, momentParse: string -> int,
                               validYoutube: bool, videoLength: Option<int>, savedPath: Option<string>)
    requires Given(params.alias) && Given(params.url)
    ensures
      var start := Seconds(params.startTime, momentParse);
      var end := Seconds(params.endTime, momentParse);
      var outcome := AddOutcome(sounds, params, momentParse, validYoutube, videoLength, savedPath);
      (outcome == Err(StartAfterEnd) <==> Truthy(start) && Truthy(end) && start.value > end.value)
  {
  }

  /** `sfxAdd` on the guild's store. */
  method SfxAddTo(db: GuildDatabase, params: AddParams, momentParse: string -> int,
                  validYoutube: bool, videoLength: Option<int>, savedPath: Option<string>)
    returns (outcome: Result<(string, string), AddError>)
    modifies db
    ensures (db.sounds, outcome) == SfxAdd(old(db.sounds), params, momentParse, validYoutube, videoLength, savedPath)
    ensures db.emoteConfig == old(db.emoteConfig) && db.webhooks == old(db.webhooks)
  {
    outcome := AddOutcome(db.sounds, params, momentParse, validYoutube, videoLength, savedPath);
    if outcome.Ok? {
      db.sounds := db.sounds[outcome.value.0 := outcome.value.1];
    }
  }
}
