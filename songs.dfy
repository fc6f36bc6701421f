/**
 * The songs service: the checks an uploaded audio file must pass, the record built for it, how failures of
 * the upload and save steps are reported, the file-name and duration helpers, and partial updates.
 */
module Songs {
  import opened Wrappers
  import opened Strings
  import opened Errors

  const MEBIBYTE: nat := 1024 * 1024
  const MAX_FILE_SIZE: nat := 100 * MEBIBYTE
  const UNKNOWN_ARTIST := "Unknown Artist"
  const ZERO_DURATION := "0:00"
  const STORAGE_FAILED := "Failed to upload to Cloudinary: "
  const UPLOAD_FAILED := "Failed to upload audio file: "

  /** The explicit list of accepted MIME types, kept beside the two prefix patterns. */
  const ALLOWED_MIME_TYPES: seq<string> := [
    "audio/mpeg", "audio/x-mpeg", "audio/mp3", "audio/wav", "audio/x-wav", "audio/ogg",
    "audio/aac", "audio/x-m4a", "audio/webm", "audio/flac", "video/mp4", "video/webm"]

  /** What the multipart parser hands over: the name, the declared type, the size in bytes and whether a buffer came with it. */
  datatype UploadedFile = UploadedFile(originalname: string, mimetype: string, size: nat, hasBuffer: bool)

  /** A song record; `id` is assigned by the repository when the record is first saved. */
  datatype Song = Song(
    id: nat,
    name: string,
    artist: Option<string>,
    audioURL: Option<string>,
    cloudinaryPublicId: string,
    duration: string,
    coverImgURL: Option<string>,
    updatedAt: Option<int>)

  // ---------------------------------------------------------------------------------------------
  // MIME types

  /** The patterns ^audio/.* and ^video/.*: the type begins with `audio/` or `video/`. */
  predicate MatchesAllowedPattern(mimetype: string) {
    StartsWith(mimetype, "audio/") || StartsWith(mimetype, "video/")
  }

  predicate IsAllowedMimeType(mimetype: string) {
    MatchesAllowedPattern(mimetype) || mimetype in ALLOWED_MIME_TYPES
  }

  /** Every listed type already matches a pattern, so a type is accepted exactly when it is audio or video. */
  lemma {:induction false} AllowedMimeTypeIsAudioOrVideo(mimetype: string)
    ensures IsAllowedMimeType(mimetype) <==> MatchesAllowedPattern(mimetype)
  {
    if mimetype in ALLOWED_MIME_TYPES {
      var i :| 0 <= i < |ALLOWED_MIME_TYPES| && ALLOWED_MIME_TYPES[i] == mimetype;
      if i < 10 {
        assert mimetype[..6] == "audio/";
      } else {
        assert mimetype[..6] == "video/";
      }
    }
  }

  // ---------------------------------------------------------------------------------------------
  // Upload guards

  /**
   * `(size / 1024 / 1024).toFixed(2)`: the size in MiB to the nearest hundredth, the larger one on a tie,
   * written with two decimals.
   */
  function MebibytesFixed2(size: nat): (r: string)
    ensures |r| >= 4 && r[|r| - 3] == '.'
    ensures AllDigits(r[..|r| - 3]) && AllDigits(r[|r| - 2..])
    ensures var hundredths := DecimalValue(r[..|r| - 3]) * 100 + DecimalValue(r[|r| - 2..]);
      size * 100 - MEBIBYTE / 2 < hundredths * MEBIBYTE <= size * 100 + MEBIBYTE / 2
    ensures (r[0] == '0') <==> RoundedHundredths(size) < 100
    ensures r[0] == '0' ==> |r| == 4
  {
    var n := RoundedHundredths(size);
    var whole := DecimalString(n / 100);
    var fraction := TwoDigits(n % 100);
    SplitLastThree(whole, '.', fraction);
    DecimalRoundTrip(n / 100);
    whole + "." + fraction
  }

  /** The number of hundredths of a MiB nearest to `size` bytes, the larger one on a tie. */
  function RoundedHundredths(size: nat): (n: nat)
    ensures size * 100 - MEBIBYTE / 2 < n * MEBIBYTE <= size * 100 + MEBIBYTE / 2
  {
    var x := size * 100 + MEBIBYTE / 2;
    assert x == x / MEBIBYTE * MEBIBYTE + x % MEBIBYTE && 0 <= x % MEBIBYTE < MEBIBYTE;
    x / MEBIBYTE
  }

  /**
   * The checks `create` makes before any upload, in order: a file, a buffer, at most 100 MiB, not empty,
   * an audio or video type.
   */
  function CheckUpload(file: Option<UploadedFile>): (r: Outcome<Exception>)
    ensures r.Pass? <==>
      && file.Some? && file.value.hasBuffer
      && 0 < file.value.size <= MAX_FILE_SIZE
      && MatchesAllowedPattern(file.value.mimetype)
    ensures file.None? ==> r == Fail(BadRequestException("No file uploaded"))
    ensures file.Some? && !file.value.hasBuffer ==>
      r == Fail(BadRequestException("Invalid file data - file buffer is empty"))
    ensures r.Fail? ==>
      r.error.kind == (if file.Some? && file.value.hasBuffer && file.value.size > MAX_FILE_SIZE
                       then PayloadTooLarge else BadRequest)
    ensures file.Some? && file.value.hasBuffer && file.value.size > MAX_FILE_SIZE ==>
      r == Fail(PayloadTooLargeException("File size (" + MebibytesFixed2(file.value.size)
                                         + "MB) exceeds maximum limit of 100MB"))
    ensures file.Some? && file.value.hasBuffer && file.value.size == 0 ==>
      r == Fail(BadRequestException("Cannot upload empty file"))
    ensures file.Some? && file.value.hasBuffer && 0 < file.value.size <= MAX_FILE_SIZE
            && !MatchesAllowedPattern(file.value.mimetype) ==>
      r == Fail(BadRequestException("Invalid file type: " + file.value.mimetype + ". Only audio files are allowed."))
  {
    AllowedMimeTypeIsAudioOrVideo(if file.Some? then file.value.mimetype else "");
    if file.None? then Fail(BadRequestException("No file uploaded"))
    else
      var f := file.value;
      if !f.hasBuffer then Fail(BadRequestException("Invalid file data - file buffer is empty"))
      else if f.size > MAX_FILE_SIZE then
        var limit := DecimalString(MAX_FILE_SIZE / MEBIBYTE);
        assert limit == "100" by {
          assert MAX_FILE_SIZE / MEBIBYTE == 100;
          assert DecimalString(100) == DecimalString(10) + [DigitChar(0)] == [DigitChar(1)] + [DigitChar(0)] + [DigitChar(0)];
        }
        assert "MB) exceeds maximum limit of " + limit + "MB" == "MB) exceeds maximum limit of 100MB";
        Fail(PayloadTooLargeException("File size (" + MebibytesFixed2(f.size) + ("MB) exceeds maximum limit of " + limit + "MB")))
      else if f.size == 0 then Fail(BadRequestException("Cannot upload empty file"))
      else if !IsAllowedMimeType(f.mimetype) then
        Fail(BadRequestException("Invalid file type: " + f.mimetype + ". Only audio files are allowed."))
      else Pass
  }

  // ---------------------------------------------------------------------------------------------
  // File names

  /** `s[i]` is a dot, and up to (not including) `k` no later character is a dot or a slash. */
  predicate DotClearTo(s: string, i: nat, k: nat) {
    i < k <= |s| && s[i] == '.' && forall j | i < j < k :: s[j] != '.' && s[j] != '/'
  }

  /** What /\.[^/.]+$/ matches at `i`: a dot followed by one or more characters up to the end, none a dot or a slash. */
  predicate ExtensionAt(s: string, i: nat) {
    i < |s| - 1 && DotClearTo(s, i, |s|)
  }

  /** At most one position of a name starts an extension. */
  lemma ExtensionUnique(s: string, i: nat, j: nat)
    requires ExtensionAt(s, i) && ExtensionAt(s, j)
    ensures i == j
  {
  }

  /** Scans `s[..k]` backwards for the last dot, giving up at a slash. */
  function LastDotBefore(s: string, k: nat): (r: Option<nat>)
    requires k <= |s|
    ensures r.Some? ==> DotClearTo(s, r.value, k)
    ensures r.None? ==> forall i | 0 <= i < k :: !DotClearTo(s, i, k)
    decreases k
  {
    if k == 0 then None
    else if s[k - 1] == '.' then Some(k - 1)
    else if s[k - 1] == '/' then None
    else
      var r := LastDotBefore(s, k - 1);
      assert r.None? ==> forall i | 0 <= i < k :: !DotClearTo(s, i, k) by {
        if r.None? {
          forall i | 0 <= i < k ensures !DotClearTo(s, i, k) {
            if i < k - 1 {
              assert !DotClearTo(s, i, k - 1);
            }
          }
        }
      }
      r
  }

  /** `filename.replace(/\.[^/.]+$/, '')`: drops a trailing extension, if there is one. */
  function RemoveFileExtension(filename: string): (r: string)
    ensures StartsWith(filename, r)
    ensures r == filename <==> forall i | 0 <= i < |filename| :: !ExtensionAt(filename, i)
    ensures r != filename ==> ExtensionAt(filename, |r|)
  {
    match LastDotBefore(filename, |filename|)
    case Some(i) =>
      if i < |filename| - 1 then
        assert ExtensionAt(filename, i);
        filename[..i]
      else
        assert forall j | 0 <= j < |filename| :: !ExtensionAt(filename, j) by {
          forall j | 0 <= j < |filename| ensures !ExtensionAt(filename, j) {
            if j < i {
              assert filename[i] == '.';
            }
          }
        }
        filename
    case None => filename
  }

  // ---------------------------------------------------------------------------------------------
  // Durations

  /** The number of seconds a duration stands for: a missing or non-positive one counts as none. */
  function SecondsOf(seconds: Option<int>): nat {
    if seconds.None? || seconds.value <= 0 then 0 else seconds.value
  }

  /** formatDuration: minutes, a colon, and the remaining seconds padded to two digits ("0:00" when there is no duration). */
  function FormatDuration(seconds: Option<int>): (r: string)
    ensures r == ZERO_DURATION <==> SecondsOf(seconds) == 0
  {
    if seconds.None? || seconds.value <= 0 then ZERO_DURATION
    else
      var mins := DecimalString(seconds.value / 60);
      var secs := TwoDigits(seconds.value % 60);
      SplitLastThree(mins, ':', secs);
      assert "00"[..1] == "0" && DecimalValue("0") == 0 && DecimalValue("00") == 0;
      assert mins[0] != '0' || DecimalValue(secs) != 0;
      mins + ":" + secs
  }

  /**
   * A formatted duration reads back as whole minutes and seconds below sixty that add up to the duration;
   * the minutes are the single digit "0" for a duration under a minute, and start with '0' for no other.
   */
  lemma FormatDurationReadsBack(seconds: Option<int>)
    ensures var r := FormatDuration(seconds);
      && |r| >= 4 && r[|r| - 3] == ':'
      && AllDigits(r[..|r| - 3]) && AllDigits(r[|r| - 2..])
      && DecimalValue(r[|r| - 2..]) < 60
      && DecimalValue(r[..|r| - 3]) * 60 + DecimalValue(r[|r| - 2..]) == SecondsOf(seconds)
      && ((r[0] == '0') <==> SecondsOf(seconds) < 60)
      && (SecondsOf(seconds) < 60 ==> r[..|r| - 3] == "0")
      && (SecondsOf(seconds) == 0 ==> r == ZERO_DURATION)
  {
    if seconds.None? || seconds.value <= 0 {
      ZeroDurationReadsBack();
    } else {
      PositiveDurationReadsBack(seconds.value);
    }
  }

  /** "0:00" reads back as zero minutes and zero seconds. */
  lemma ZeroDurationReadsBack()
    ensures var r := ZERO_DURATION;
      && |r| >= 4 && r[|r| - 3] == ':'
      && AllDigits(r[..|r| - 3]) && AllDigits(r[|r| - 2..])
      && DecimalValue(r[..|r| - 3]) == 0 && DecimalValue(r[|r| - 2..]) == 0 && r[..|r| - 3] == "0"
  {
    assert ZERO_DURATION[..1] == "0" && ZERO_DURATION[2..] == "00";
    assert "00"[..1] == "0" && DecimalValue("0") == 0 && DecimalValue("00") == 0;
  }

  /** A positive duration is written as its whole minutes, a colon and its remaining seconds in two digits. */
  lemma PositiveDurationReadsBack(n: int)
    requires n > 0
    ensures var r := FormatDuration(Some(n));
      && |r| >= 4 && r[|r| - 3] == ':'
      && AllDigits(r[..|r| - 3]) && AllDigits(r[|r| - 2..])
      && DecimalValue(r[|r| - 2..]) < 60
      && DecimalValue(r[..|r| - 3]) * 60 + DecimalValue(r[|r| - 2..]) == n
      && ((r[0] == '0') <==> n < 60)
      && (n < 60 ==> r[..|r| - 3] == "0")
  {
    var mins := DecimalString(n / 60);
    var secs := TwoDigits(n % 60);
    SplitLastThree(mins, ':', secs);
    DecimalRoundTrip(n / 60);
    var r := mins + ":" + secs;
    assert r[..|r| - 3] == mins && r[|r| - 2..] == secs && r[0] == mins[0];
    assert DecimalValue(mins) * 60 + DecimalValue(secs) == n;
    assert n < 60 ==> mins == [DigitChar(0)] == "0";
  }

  // ---------------------------------------------------------------------------------------------
  // The upload and save steps, and how their failures are reported

  /** The object the upload resolves to; its fields may be missing. */
  datatype CloudinaryResponse = CloudinaryResponse(secureUrl: Option<string>, publicId: Option<string>, duration: Option<int>)

  /** How the audio upload ended: it threw, or it resolved (possibly to null). */
  datatype UploadOutcome = UploadThrew(error: Exception) | UploadReturned(response: Option<CloudinaryResponse>)

  /** How the repository save ended: it threw, or it resolved to a record (possibly null) whose id may be falsy. */
  datatype SaveOutcome = SaveThrew(error: Exception) | SaveReturned(id: Option<nat>)

  /** Calls into the storage service and the repository, in the order `create` makes them. */
  datatype ExternalCall = UploadAudio(file: UploadedFile) | SaveSong(song: Song) | DeleteAudio(publicId: string)

  /** The upload resolved to a response carrying a secure URL and a public id. */
  predicate Uploaded(upload: UploadOutcome) {
    upload.UploadReturned? && upload.response.Some?
    && Truthy(upload.response.value.secureUrl) && Truthy(upload.response.value.publicId)
  }

  /** The upload resolved to a response with a public id: the file is on the storage service. */
  predicate PublicIdReturned(upload: UploadOutcome) {
    upload.UploadReturned? && upload.response.Some? && Truthy(upload.response.value.publicId)
  }

  /** The save resolved to a record with a truthy id. */
  predicate Saved(save: SaveOutcome) {
    save.SaveReturned? && save.id.Some? && save.id.value != 0
  }

  /** The record `create` builds from the file and the upload's response, before the repository gives it an id. */
  function NewSong(file: UploadedFile, response: CloudinaryResponse): (song: Song)
    requires Truthy(response.secureUrl) && Truthy(response.publicId)
    ensures song.name == RemoveFileExtension(file.originalname) && StartsWith(file.originalname, song.name)
    ensures song.duration == FormatDuration(response.duration)
    ensures song.artist == Some(UNKNOWN_ARTIST) && song.coverImgURL == None && song.id == 0 && song.updatedAt == None
    ensures song.audioURL == response.secureUrl && song.cloudinaryPublicId == response.publicId.value
  {
    Song(0, RemoveFileExtension(file.originalname), Some(UNKNOWN_ARTIST), response.secureUrl,
         response.publicId.value, FormatDuration(response.duration), None, None)
  }

  /** The error the upload-and-save block raises, if any, given how the two steps ended. */
  function StepError(upload: UploadOutcome, save: SaveOutcome): (r: Option<Exception>)
    ensures r.None? <==> Uploaded(upload) && Saved(save)
    ensures upload.UploadThrew? ==> r == Some(upload.error)
    ensures Uploaded(upload) && save.SaveThrew? ==> r == Some(save.error)
  {
    match upload
    case UploadThrew(e) => Some(e)
    case UploadReturned(response) =>
      if response.None? then Some(PlainError("Cloudinary returned null response"))
      else if !Truthy(response.value.secureUrl) then Some(PlainError("Cloudinary response missing secure_url"))
      else if !Truthy(response.value.publicId) then Some(PlainError("Cloudinary response missing public_id"))
      else
        match save
        case SaveThrew(e) => Some(e)
        case SaveReturned(id) =>
          if id.None? then Some(PlainError("Database returned null after save"))
          else if id.value == 0 then Some(PlainError("Database returned song without ID"))
          else None
  }

  /** Whether an error message mentions `word`; a missing message mentions nothing. */
  predicate Mentions(message: Option<string>, word: string) {
    message.Some? && Contains(message.value, word)
  }

  /**
   * The catch block's classification, first match wins: storage errors become 400, database errors 500,
   * a 400 or 413 passes through, and anything else becomes a generic 500.
   */
  function ClassifyUploadError(e: Exception): (r: Exception)
    ensures r.kind in {BadRequest, PayloadTooLarge, InternalServerError}
    ensures Mentions(e.message, "Cloudinary") ==> r == BadRequestException(STORAGE_FAILED + e.message.value)
    ensures !Mentions(e.message, "Cloudinary") && (Mentions(e.message, "Database") || e.name == "QueryFailedError") ==>
      r == InternalServerErrorException("Failed to save song to database. Please try again.")
    ensures !Mentions(e.message, "Cloudinary") && !Mentions(e.message, "Database") && e.name != "QueryFailedError" ==>
      (e.kind in {BadRequest, PayloadTooLarge} <==> r == e)
    ensures (!Mentions(e.message, "Cloudinary") && !Mentions(e.message, "Database") && e.name != "QueryFailedError"
             && e.kind !in {BadRequest, PayloadTooLarge}) ==>
      r == InternalServerErrorException(UPLOAD_FAILED + (if Truthy(e.message) then e.message.value else "Unknown error"))
    ensures r.kind == PayloadTooLarge ==> r == e
  {
    if Mentions(e.message, "Cloudinary") then
      BadRequestException(STORAGE_FAILED + e.message.value)
    else if Mentions(e.message, "Database") || e.name == "QueryFailedError" then
      InternalServerErrorException("Failed to save song to database. Please try again.")
    else if e.kind == BadRequest || e.kind == PayloadTooLarge then e
    else
      var detail := if Truthy(e.message) then e.message.value else "Unknown error";
      InternalServerErrorException(UPLOAD_FAILED + detail)
  }

  /** The two messages a bad save result produces mention the database and not the storage service. */
  lemma DatabaseMessages(m: string)
    requires m == "Database returned null after save" || m == "Database returned song without ID"
    ensures Contains(m, "Database") && !Contains(m, "Cloudinary")
  {
    assert m[..8] == "Database";
    assert forall i | 0 <= i < |m| :: m[i] != 'C';
    FirstCharAbsent(m, "Cloudinary");
  }

  /** The three messages a bad storage response produces mention the storage service. */
  lemma CloudinaryMessages(m: string)
    requires || m == "Cloudinary returned null response"
             || m == "Cloudinary response missing secure_url"
             || m == "Cloudinary response missing public_id"
    ensures Contains(m, "Cloudinary")
  {
    assert m[..10] == "Cloudinary";
  }

  /**
   * The failures the two steps report themselves (rather than throw) are told apart: a bad storage response
   * becomes a 400, a bad save result a 500.
   */
  lemma StepFailuresClassified(upload: UploadOutcome, save: SaveOutcome)
    requires StepError(upload, save).Some?
    requires upload.UploadReturned? && (Uploaded(upload) ==> save.SaveReturned?)
    ensures var r := ClassifyUploadError(StepError(upload, save).value);
      r.kind == (if Uploaded(upload) then InternalServerError else BadRequest)
  {
    var e := StepError(upload, save).value;
    if Uploaded(upload) {
      DatabaseMessages(e.message.value);
      assert Mentions(e.message, "Database") && !Mentions(e.message, "Cloudinary");
    } else {
      CloudinaryMessages(e.message.value);
      assert Mentions(e.message, "Cloudinary");
    }
  }

  // ---------------------------------------------------------------------------------------------
  // Partial updates

  /** The body of a PATCH: each field is either missing (`undefined`) or a new value. */
  datatype UpdateSongDto = UpdateSongDto(name: Option<string>, artist: Option<string>)

  /** update's field rule: a field that is present replaces the old value, even when empty; the update time is set. */
  function ApplySongUpdate(song: Song, dto: UpdateSongDto, now: int): (r: Song)
    ensures r.name == dto.name.GetOr(song.name)
    ensures r.artist == (if dto.artist.Some? then dto.artist else song.artist)
    ensures r.updatedAt == Some(now)
    ensures r.(name := song.name, artist := song.artist, updatedAt := song.updatedAt) == song
  {
    var named := if dto.name.Some? then song.(name := dto.name.value) else song;
    var credited := if dto.artist.Some? then named.(artist := dto.artist) else named;
    credited.(updatedAt := Some(now))
  }

  /** Sending the same update twice is the same as sending it once, at the later time. */
  lemma {:induction false} SongUpdateIdempotent(song: Song, dto: UpdateSongDto, first: int, second: int)
    ensures ApplySongUpdate(ApplySongUpdate(song, dto, first), dto, second) == ApplySongUpdate(song, dto, second)
  {
  }

  function NotFoundMessage(id: nat): string {
    "Song with ID " + DecimalString(id) + " not found"
  }

  /** The songs repository, with a log of the calls made to the storage service and to the repository. */
  class SongsService {
    var songs: map<nat, Song>
    var calls: seq<ExternalCall>

    constructor()
      ensures songs == map[] && calls == []
    {
      songs := map[];
      calls := [];
    }

    /**
     * create: the guards, then the upload, then the save; on a failure after the upload returned a public id,
     * the uploaded file is deleted again before the classified error is thrown.
     */
    method Create(file: Option<UploadedFile>, upload: UploadOutcome, save: SaveOutcome)
      returns (r: Result<Song, Exception>)
      modifies this
      ensures CheckUpload(file).Fail? ==>
        r == Failure(CheckUpload(file).error) && songs == old(songs) && calls == old(calls)
      ensures CheckUpload(file).Pass? ==>
        && (r.Success? <==> StepError(upload, save).None?)
        && (r.Failure? ==> r.error == ClassifyUploadError(StepError(upload, save).value))
        && calls == old(calls) + [UploadAudio(file.value)]
             + (if Uploaded(upload) then [SaveSong(NewSong(file.value, upload.response.value))] else [])
             + (if r.Failure? && PublicIdReturned(upload)
                then [DeleteAudio(upload.response.value.publicId.value)] else [])
      ensures r.Failure? ==> songs == old(songs) && r.error.kind in {BadRequest, PayloadTooLarge, InternalServerError}
      ensures r.Success? ==>
        && Uploaded(upload) && Saved(save)
        && r.value == NewSong(file.value, upload.response.value).(id := save.id.value)
        && songs == old(songs)[r.value.id := r.value]
    {
      var check := CheckUpload(file);
      if check.Fail? {
        return Failure(check.error);
      }
      var f := file.value;
      calls := calls + [UploadAudio(f)];
      ghost var saves := if Uploaded(upload) then [SaveSong(NewSong(f, upload.response.value))] else [];
      if Uploaded(upload) {
        calls := calls + [SaveSong(NewSong(f, upload.response.value))];
      }
      assert calls == old(calls) + [UploadAudio(f)] + saves;
      var failure := StepError(upload, save);
      if failure.None? {
        var song := NewSong(f, upload.response.value).(id := save.id.value);
        songs := songs[song.id := song];
        return Success(song);
      }
      var error := ClassifyUploadError(failure.value);
      assert error.kind in {BadRequest, PayloadTooLarge, InternalServerError};
      ghost var rollback := if PublicIdReturned(upload) then [DeleteAudio(upload.response.value.publicId.value)] else [];
      if PublicIdReturned(upload) {
        calls := calls + [DeleteAudio(upload.response.value.publicId.value)];
      }
      assert calls == old(calls) + [UploadAudio(f)] + saves + rollback;
      return Failure(error);
    }

    /** update: an unknown id is a 404; otherwise the present fields are replaced and the record saved. */
    method Update(id: nat, dto: UpdateSongDto, now: int) returns (r: Result<Song, Exception>)
      modifies this
      ensures calls == old(calls)
      ensures id !in old(songs) ==> r == Failure(NotFoundException(NotFoundMessage(id))) && songs == old(songs)
      ensures id in old(songs) ==>
        && r == Success(ApplySongUpdate(old(songs)[id], dto, now))
        && songs == old(songs)[id := r.value]
    {
      if id !in songs {
        return Failure(NotFoundException(NotFoundMessage(id)));
      }
      var song := songs[id];
      if dto.name.Some? {
        song := song.(name := dto.name.value);
      }
      if dto.artist.Some? {
        song := song.(artist := dto.artist);
      }
      song := song.(updatedAt := Some(now));
      songs := songs[id := song];
      return Success(song);
    }
  }
}
