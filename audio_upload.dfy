/**
 * The custom-audio upload: a file is accepted when its MIME type contains
 * `audio/mp3`, `audio/mpeg` or `audio/wav` (the pattern is not anchored)
 * and its size is at most 20 MiB; the type is checked first. The audio's
 * duration is then read from its metadata, progress is reported in steps
 * of 10 from 0 to 100, and the URL and metadata are recorded.
 *
 * Creating the object URL and loading the metadata are the browser's
 * work: the model takes their outcomes as parameters (the URL, or the
 * message of the error `URL.createObjectURL` throws; the duration, or
 * `None` when the audio element reports an error). The 50 ms pause
 * between progress steps is not modelled.
 */
module AudioUpload {
  import opened Base

  /** The parts of a `File` the upload reads. */
  datatype UploadFile = UploadFile(name: string, mimeType: string, size: nat)

  /** `AudioMetadata` */
  datatype AudioMetadata = AudioMetadata(name: string, duration: real, size: nat)

  /** What `URL.createObjectURL(file)` did: returned a URL, or threw an error with this message. */
  datatype ObjectUrl = Created(url: string) | Thrown(message: string)

  /** `20 * 1024 * 1024` */
  const MaxSize: nat := 20 * 1024 * 1024

  const TypeMessage := "Please upload an MP3 or WAV file"
  const SizeMessage := "File size must be less than 20MB"
  const LoadMessage := "Failed to load audio file"

  /** `part` occurs in `s` starting at position i. */
  predicate OccursAt(s: string, part: string, i: int)
  {
    0 <= i <= |s| - |part| && s[i..i + |part|] == part
  }

  /** `s` contains `part` somewhere. */
  function Contains(s: string, part: string): (r: bool)
    ensures r <==> exists i :: OccursAt(s, part, i)
    decreases |s|
  {
    if |s| < |part| then false
    else if s[..|part|] == part then assert OccursAt(s, part, 0); true
    else
      var r := Contains(s[1..], part);
      assert forall i :: OccursAt(s[1..], part, i) <==> OccursAt(s, part, i + 1) by {
        forall i ensures OccursAt(s[1..], part, i) <==> OccursAt(s, part, i + 1) {
          if 0 <= i <= |s[1..]| - |part| {
            assert s[1..][i..i + |part|] == s[i + 1..i + 1 + |part|];
          }
        }
      }
      assert !OccursAt(s, part, 0);
      assert (exists i :: OccursAt(s, part, i)) ==> r by {
        if exists i :: OccursAt(s, part, i) {
          var i :| OccursAt(s, part, i);
          assert OccursAt(s[1..], part, i - 1);
        }
      }
      r
  }

  /** `file.type.match(/audio\/(mp3|mpeg|wav)/)` succeeds. */
  predicate AcceptedType(mimeType: string)
  {
    Contains(mimeType, "audio/mp3") || Contains(mimeType, "audio/mpeg") || Contains(mimeType, "audio/wav")
  }

  /** The pattern is unanchored: text around an accepted type does not matter. */
  lemma AcceptedTypeUnanchored(prefix: string, mimeType: string, suffix: string)
    requires mimeType in {"audio/mp3", "audio/mpeg", "audio/wav"}
    ensures AcceptedType(prefix + mimeType + suffix)
  {
    var s := prefix + mimeType + suffix;
    assert s[|prefix|..|prefix| + |mimeType|] == mimeType;
    assert OccursAt(s, mimeType, |prefix|);
  }

  /** Types that do not contain any of the three patterns, such as `audio/ogg`, are refused. */
  lemma OggRefused()
    ensures !AcceptedType("audio/ogg")
  {
    assert !Contains("audio/ogg", "audio/mpeg") by {
      assert |"audio/ogg"| < |"audio/mpeg"|;
    }
    assert !Contains("audio/ogg", "audio/mp3") by {
      assert "audio/ogg"[6] != "audio/mp3"[6];
    }
    assert !Contains("audio/ogg", "audio/wav") by {
      assert "audio/ogg"[6] != "audio/wav"[6];
    }
  }

  /** How an upload ends: the error message, or the URL and metadata recorded. */
  datatype Outcome = Failed(message: string) | Uploaded(url: string, metadata: AudioMetadata)

  /**
   * The outcome of uploading `file`, given the object URL creation and the
   * metadata load: the checks fail in the order type, size, URL, metadata,
   * and the upload succeeds exactly when none fails.
   */
  function UploadOutcome(file: UploadFile, objectUrl: ObjectUrl, loadedDuration: Option<real>): (o: Outcome)
    ensures !AcceptedType(file.mimeType) ==> o == Failed(TypeMessage)
    ensures AcceptedType(file.mimeType) && file.size > MaxSize ==> o == Failed(SizeMessage)
    ensures AcceptedType(file.mimeType) && file.size <= MaxSize && objectUrl.Thrown? ==> o == Failed(objectUrl.message)
    ensures AcceptedType(file.mimeType) && file.size <= MaxSize && objectUrl.Created? && loadedDuration.None? ==>
      o == Failed(LoadMessage)
    ensures o.Uploaded? <==> AcceptedType(file.mimeType) && file.size <= MaxSize && objectUrl.Created? && loadedDuration.Some?
    ensures o.Uploaded? ==> o.url == objectUrl.url && o.metadata == AudioMetadata(file.name, loadedDuration.value, file.size)
  {
    if !AcceptedType(file.mimeType) then Failed(TypeMessage)
    else if file.size > MaxSize then Failed(SizeMessage)
    else if objectUrl.Thrown? then Failed(objectUrl.message)
    else if loadedDuration.None? then Failed(LoadMessage)
    else Uploaded(objectUrl.url, AudioMetadata(file.name, loadedDuration.value, file.size))
  }

  /** Exactly 20 MiB is accepted and one byte more is rejected. */
  lemma SizeLimitInclusive(name: string, mimeType: string, url: string, duration: real)
    requires AcceptedType(mimeType)
    ensures UploadOutcome(UploadFile(name, mimeType, 20971520), Created(url), Some(duration)).Uploaded?
    ensures UploadOutcome(UploadFile(name, mimeType, 20971521), Created(url), Some(duration)) == Failed(SizeMessage)
  {
  }

  /** The progress values reported before success: 0, 10, ..., 100. */
  function ProgressSteps(): (steps: seq<int>)
    ensures |steps| == 11 && steps[0] == 0 && steps[10] == 100
    ensures forall k :: 0 < k < |steps| ==> steps[k] == steps[k - 1] + 10
  {
    seq(11, k => 10 * k)
  }

  /** The audio upload store (`useAudioUpload`). */
  class AudioUploadStore {
    var isUploading: bool
    var uploadProgress: int
    var audioUrl: Option<string>
    var audioMetadata: Option<AudioMetadata>
    var error: Option<string>

    constructor()
      ensures !isUploading && uploadProgress == 0 && audioUrl == None && audioMetadata == None && error == None
    {
      isUploading := false;
      uploadProgress := 0;
      audioUrl := None;
      audioMetadata := None;
      error := None;
    }

    /**
     * `uploadAudio(file)`. `reported` lists the progress values set by the
     * `for (i = 0; i <= 100; i += 10)` loop. A failure sets the message and
     * clears the uploading flag, leaving the recorded audio as it was.
     */
    method UploadAudio(file: UploadFile, objectUrl: ObjectUrl, loadedDuration: Option<real>) returns (reported: seq<int>)
      modifies this
      ensures !isUploading
      ensures UploadOutcome(file, objectUrl, loadedDuration).Failed? ==>
        && error == Some(UploadOutcome(file, objectUrl, loadedDuration).message)
        && uploadProgress == 0 && reported == []
        && audioUrl == old(audioUrl) && audioMetadata == old(audioMetadata)
      ensures UploadOutcome(file, objectUrl, loadedDuration).Uploaded? ==>
        && error == None && uploadProgress == 100 && reported == ProgressSteps()
        && audioUrl == Some(objectUrl.url)
        && audioMetadata == Some(UploadOutcome(file, objectUrl, loadedDuration).metadata)
    {
      error := None;
      uploadProgress := 0;
      isUploading := true;
      reported := [];
      if !AcceptedType(file.mimeType) {
        error := Some(TypeMessage);
        isUploading := false;
        return;
      }
      if file.size > MaxSize {
        error := Some(SizeMessage);
        isUploading := false;
        return;
      }
      if objectUrl.Thrown? {
        error := Some(objectUrl.message);
        isUploading := false;
        return;
      }
      var url := objectUrl.url;
      if loadedDuration.None? {
        error := Some(LoadMessage);
        isUploading := false;
        return;
      }
      var i := 0;
      while i <= 100
        invariant 0 <= i <= 110 && i % 10 == 0
        invariant |reported| == i / 10
        invariant forall k :: 0 <= k < |reported| ==> reported[k] == 10 * k
        invariant uploadProgress == if i == 0 then 0 else i - 10
        invariant error == None
      {
        uploadProgress := i;
        reported := reported + [i];
        i := i + 10;
      }
      assert reported == ProgressSteps();
      audioUrl := Some(url);
      audioMetadata := Some(AudioMetadata(file.name, loadedDuration.value, file.size));
      isUploading := false;
    }

    /** `clearAudio()`: forgets the audio, its metadata and any error; the object URL's release is not modelled. */
    method ClearAudio()
      modifies this
      ensures audioUrl == None && audioMetadata == None && error == None && uploadProgress == 0
      ensures isUploading == old(isUploading)
    {
      audioUrl := None;
      audioMetadata := None;
      error := None;
      uploadProgress := 0;
    }
  }
}
