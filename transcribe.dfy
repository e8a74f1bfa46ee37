/**
 * The voice-input endpoint (`POST /api/transcribe`): takes a recorded clip as a
 * base64 data URI, extracts the base64 payload, infers the file extension from
 * the MIME type the URI names, and asks the speech-to-text service for a French
 * plain-text transcription.
 */
module Transcribe {
  import opened Wrappers
  import opened Strings
  import opened Http

  /** The parsed request: its method and the body's `audio` field. */
  datatype TranscribeRequest = TranscribeRequest(httpMethod: string, audio: Option<string>)

  const KeyMissing: Reply := Reply(500, ErrorBody("Clé API OpenAI non configurée"))
  const AudioMissing: Reply := Reply(400, ErrorBody("Données audio manquantes"))

  // ---------------------------------------------------------------------------
  // split(",")
  // ---------------------------------------------------------------------------

  /** The position of the first `c` in `s`. */
  function IndexOf(s: string, c: char): (r: Option<nat>)
    ensures r.None? <==> c !in s
    ensures r.Some? ==> r.value < |s| && s[r.value] == c && c !in s[..r.value]
  {
    if s == [] then None
    else if s[0] == c then Some(0)
    else match IndexOf(s[1..], c)
      case None => None
      case Some(i) =>
        assert s[..i + 1] == [s[0]] + s[1..][..i];
        Some(i + 1)
  }

  /** `s.split(c)` for a one-character separator: the fields between the separators, in order. */
  function Split(s: string, c: char): (r: seq<string>)
    ensures |r| >= 1
    ensures forall i | 0 <= i < |r| :: c !in r[i]
    ensures c in s ==> |r| >= 2
    decreases |s|
  {
    match IndexOf(s, c)
    case None => [s]
    case Some(i) => [s[..i]] + Split(s[i + 1..], c)
  }

  /** A string with a `c` splits into the text before its first `c` and the fields of the rest. */
  lemma SplitAtFirst(s: string, c: char, i: nat)
    requires IndexOf(s, c) == Some(i)
    ensures Split(s, c) == [s[..i]] + Split(s[i + 1..], c)
    ensures |Split(s, c)| >= 2
  {
  }

  /** Joining a head onto at least one more part puts the separator between them. */
  lemma JoinCons(head: string, rest: seq<string>, sep: string)
    requires |rest| >= 1
    ensures Join([head] + rest, sep) == head + sep + Join(rest, sep)
  {
    assert ([head] + rest)[1..] == rest;
  }

  /** Splitting loses nothing: joining the fields with the separator gives back the string. */
  lemma {:induction false} SplitJoin(s: string, c: char)
    ensures Join(Split(s, c), [c]) == s
    decreases |s|
  {
    var first := IndexOf(s, c);
    if first.Some? {
      var i := first.value;
      var rest := Split(s[i + 1..], c);
      SplitAtFirst(s, c, i);
      SplitJoin(s[i + 1..], c);
      JoinCons(s[..i], rest, [c]);
      assert s == s[..i] + [c] + s[i + 1..];
    }
  }

  /** `audio.includes(",") ? audio.split(",")[1] : audio`: the base64 payload. */
  function Payload(audio: string): string {
    if ',' in audio then Split(audio, ',')[1] else audio
  }

  /** The first field is a prefix without the separator, ended by the separator or by the end of the string. */
  lemma FirstField(t: string, c: char)
    ensures var p := Split(t, c)[0];
      && c !in p && |p| <= |t| && t[..|p|] == p
      && (|p| == |t| || t[|p|] == c)
  {
  }

  /** The second field is the first field of what follows the first separator. */
  lemma SecondField(s: string, c: char, i: nat)
    requires IndexOf(s, c) == Some(i)
    ensures |Split(s, c)| >= 2 && Split(s, c)[1] == Split(s[i + 1..], c)[0]
  {
    SplitAtFirst(s, c, i);
  }

  /** The payload is the text between the first comma and the next one (or the end); without a comma, the whole string. */
  lemma PayloadBetweenCommas(audio: string)
    ensures ',' !in audio ==> Payload(audio) == audio
    ensures ',' in audio ==>
      var i := IndexOf(audio, ',').value;
      var p := Payload(audio);
      && ',' !in p
      && i + 1 + |p| <= |audio|
      && audio[i + 1..i + 1 + |p|] == p
      && (i + 1 + |p| == |audio| || audio[i + 1 + |p|] == ',')
  {
    if ',' in audio {
      var i := IndexOf(audio, ',').value;
      var rest := audio[i + 1..];
      SecondField(audio, ',', i);
      FirstField(rest, ',');
      var p := Split(rest, ',')[0];
      assert audio[i + 1..i + 1 + |p|] == rest[..|p|];
    }
  }

  /** A data URI `header,data` whose header and data hold no comma yields exactly its data. */
  lemma DataUriPayload(header: string, data: string)
    requires ',' !in header && ',' !in data
    ensures Payload(header + "," + data) == data
  {
    var audio := header + "," + data;
    assert audio[|header|] == ',';
    assert audio[..|header|] == header;
    var i := IndexOf(audio, ',').value;
    assert i == |header|;
    assert audio[i + 1..] == data;
    PayloadBetweenCommas(audio);
    var p := Payload(audio);
    assert |p| == |data|;
    assert p == audio[i + 1..i + 1 + |p|];
  }

  // ---------------------------------------------------------------------------
  // The file extension
  // ---------------------------------------------------------------------------

  /** The if/else-if chain on the whole `audio` string, with `webm` as the starting value. */
  function Extension(audio: string): (ext: string)
    ensures ext == "mp4" || ext == "ogg" || ext == "wav" || ext == "webm"
  {
    if Contains(audio, "audio/mp4") then "mp4"
    else if Contains(audio, "audio/ogg") then "ogg"
    else if Contains(audio, "audio/wav") then "wav"
    else "webm"
  }

  /** Each extension is chosen exactly when its MIME type is the first of mp4, ogg, wav to occur; webm when none does. */
  lemma ExtensionPriority(audio: string)
    ensures Extension(audio) == "mp4" <==> Contains(audio, "audio/mp4")
    ensures Extension(audio) == "ogg" <==> !Contains(audio, "audio/mp4") && Contains(audio, "audio/ogg")
    ensures Extension(audio) == "wav" <==>
      !Contains(audio, "audio/mp4") && !Contains(audio, "audio/ogg") && Contains(audio, "audio/wav")
    ensures Extension(audio) == "webm" <==>
      !Contains(audio, "audio/mp4") && !Contains(audio, "audio/ogg") && !Contains(audio, "audio/wav")
  {
  }

  /** The uploaded file: `audio.<ext>`, of type `audio/<ext>`, holding the decoded payload. */
  datatype AudioFile = AudioFile(name: string, mimeType: string, base64: string)

  function ClipFile(audio: string): AudioFile {
    var ext := Extension(audio);
    AudioFile("audio." + ext, "audio/" + ext, Payload(audio))
  }

  /** Unless it fell back to webm, the file's type is a MIME type the data URI itself names. */
  lemma FileTypeNamedByUri(audio: string)
    ensures var f := ClipFile(audio);
      && StartsWith(f.name, "audio.")
      && (Extension(audio) != "webm" ==> Contains(audio, f.mimeType))
      && f.name[6..] == f.mimeType[6..]
  {
    var ext := Extension(audio);
    assert ("audio." + ext)[6..] == ext && ("audio/" + ext)[6..] == ext;
    if ext == "mp4" {
      assert "audio/" + ext == "audio/mp4";
    } else if ext == "ogg" {
      assert "audio/" + ext == "audio/ogg";
    } else if ext == "wav" {
      assert "audio/" + ext == "audio/wav";
    }
  }

  // ---------------------------------------------------------------------------
  // The handler
  // ---------------------------------------------------------------------------

  /** The speech-to-text request: the file, `whisper-1`, French, plain-text response. */
  datatype TranscriptionCall = TranscriptionCall(file: AudioFile, model: string, language: string, responseFormat: string)

  /** What the speech-to-text service did: it returned the transcription, or it threw. */
  datatype WhisperResult = Transcribed(text: string) | WhisperFailed(thrown: Thrown)

  /** The reply, and the request made to the service if one was. */
  datatype TranscribeOutcome = TranscribeOutcome(reply: Reply, call: Option<TranscriptionCall>)

  /**
   * `handler`: the method check, then the key check, then the audio check, then
   * the transcription; a thrown error gives 500 with its message.
   */
  function HandleTranscribe(req: TranscribeRequest, apiKey: Option<string>, whisper: WhisperResult): (o: TranscribeOutcome)
    ensures o.call.Some? <==> req.httpMethod == "POST" && Truthy(apiKey) && Truthy(req.audio)
    ensures o.call.Some? ==> o.call.value.file == ClipFile(req.audio.value)
  {
    if req.httpMethod != "POST" then TranscribeOutcome(MethodNotAllowed, None)
    else if !Truthy(apiKey) then TranscribeOutcome(KeyMissing, None)
    else if !Truthy(req.audio) then TranscribeOutcome(AudioMissing, None)
    else
      var call := TranscriptionCall(ClipFile(req.audio.value), "whisper-1", "fr", "text");
      match whisper
      case Transcribed(text) => TranscribeOutcome(Reply(200, TextBody(text)), Some(call))
      case WhisperFailed(thrown) =>
        TranscribeOutcome(Reply(500, ErrorBody(CaughtMessage(thrown, "Erreur de transcription"))), Some(call))
  }

  /** The checks run in order: method, then key, then audio, so a request lacking both key and audio gets 500. */
  lemma ChecksInOrder(req: TranscribeRequest, apiKey: Option<string>, whisper: WhisperResult)
    ensures req.httpMethod != "POST" ==> HandleTranscribe(req, apiKey, whisper).reply == MethodNotAllowed
    ensures req.httpMethod == "POST" && !Truthy(apiKey) ==>
      HandleTranscribe(req, apiKey, whisper).reply == KeyMissing
    ensures req.httpMethod == "POST" && Truthy(apiKey) && !Truthy(req.audio) ==>
      HandleTranscribe(req, apiKey, whisper).reply == AudioMissing
  {
  }

  /** Once the request is sent, the reply is 200 with the text, or 500 with the error's message. */
  lemma TranscriptionReply(req: TranscribeRequest, apiKey: Option<string>, whisper: WhisperResult)
    requires req.httpMethod == "POST" && Truthy(apiKey) && Truthy(req.audio)
    ensures var o := HandleTranscribe(req, apiKey, whisper);
      && (whisper.Transcribed? ==> o.reply == Reply(200, TextBody(whisper.text)))
      && (whisper.WhisperFailed? ==>
            o.reply == Reply(500, ErrorBody(CaughtMessage(whisper.thrown, "Erreur de transcription"))))
      && o.call.value.model == "whisper-1"
      && o.call.value.language == "fr"
      && o.call.value.responseFormat == "text"
  {
  }

  /** A `<scheme><type><marker>,<data>` URI without other commas names its type and yields its data. */
  lemma DataUriOfType(scheme: string, mime: string, marker: string, data: string)
    requires ',' !in scheme && ',' !in mime && ',' !in marker && ',' !in data
    ensures var audio := scheme + mime + marker + "," + data;
      Contains(audio, mime) && Payload(audio) == data
  {
    DataUriPayload(scheme + mime + marker, data);
    ContainsPart(scheme, mime, marker + "," + data);
    assert scheme + mime + (marker + "," + data) == scheme + mime + marker + "," + data;
  }

  /** The pieces of an Ogg data URI hold no comma and no `p` (so no `audio/mp4`). */
  lemma OggUriPieces(data: string)
    requires data == "T2dnUw"
    ensures ',' !in "data:" && ',' !in "audio/ogg" && ',' !in ";base64" && ',' !in data
    ensures !Contains("data:" + "audio/ogg" + ";base64" + "," + data, "audio/mp4")
  {
    var audio := "data:" + "audio/ogg" + ";base64" + "," + data;
    assert 'p' !in "data:" && 'p' !in "audio/ogg" && 'p' !in ";base64" && 'p' !in data;
    MissingCharNotContained(audio, "audio/mp4", 7);
  }

  /** An Ogg clip sent as a `data:audio/ogg;base64,` URI is uploaded as `audio.ogg`, with just its base64 data. */
  lemma OggClip(data: string)
    requires data == "T2dnUw"
    ensures var f := ClipFile("data:" + "audio/ogg" + ";base64" + "," + data);
      f.name == "audio.ogg" && f.mimeType == "audio/ogg" && f.base64 == data
  {
    OggUriPieces(data);
    DataUriOfType("data:", "audio/ogg", ";base64", data);
  }
}
