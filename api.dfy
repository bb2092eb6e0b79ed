/**
 * The HTTP handlers of the audio API over the audio_files collection.
 * Each handler is a method of `AudioServer`, which holds the collection's
 * contents; a handler answers either with its payload or with the HTTP error
 * it raises (400 for a duplicate language, 404 for a missing one).
 */
module Api {
  import opened Records
  import opened Collection

  /** An `HTTPException`: status code and detail message. */
  datatype HttpError = HttpError(statusCode: nat, detail: string)

  /** What a handler answers: its payload, or the HTTP error it raised. */
  datatype Outcome<T> = Ok(value: T) | Err(error: HttpError)

  function NotFound(language: string): HttpError
  {
    HttpError(404, "Audio file not found for language: " + language)
  }

  function AlreadyExists(language: string): HttpError
  {
    HttpError(400, "Audio file for language '" + language + "' already exists")
  }

  function DeletedMessage(language: string): string
  {
    "Audio file for language '" + language + "' deleted successfully"
  }

  /** The in-memory `audio_storage` list: a copy of the seed that no handler writes to. */
  const AudioStorage: seq<AudioFile> := SampleAudioData

  /**
   * The first handler registered for GET /api/audio: one `AudioFile` per item
   * of `audio_storage`. Since no handler writes that list, it always answers
   * the seed records, whatever the collection holds.
   */
  function GetAllAudioInMemory(): (r: seq<AudioFile>)
    ensures r == SampleAudioData
    ensures UniqueLanguages(r) && IdsDerived(r)
  {
    SampleAudioDataWellFormed();
    seq(|AudioStorage|, i requires 0 <= i < |AudioStorage| =>
      AudioFile(AudioStorage[i].id, AudioStorage[i].language, AudioStorage[i].audioUrl, AudioStorage[i].textContent))
  }

  class AudioServer {
    /** The documents of the audio_files collection, in storage order. */
    var collection: seq<AudioFile>

    /** A server over a collection that already holds `initial` (the startup hook only prints a line and loads nothing). */
    constructor (initial: seq<AudioFile>)
      ensures collection == initial
    {
      collection := initial;
    }

    /**
     * The second handler registered for GET /api/audio: one `AudioFile` per
     * stored document, in storage order, nothing filtered and nothing sorted.
     */
    method GetAllAudio() returns (files: seq<AudioFile>)
      ensures |files| == |collection|
      ensures forall k :: 0 <= k < |files| ==> files[k] == collection[k]
    {
      files := [];
      var i := 0;
      while i < |collection|
        invariant 0 <= i <= |collection|
        invariant files == collection[..i]
      {
        var document := collection[i];
        files := files + [AudioFile(document.id, document.language, document.audioUrl, document.textContent)];
        i := i + 1;
      }
    }

    /** GET /api/audio/{language}: the first record with that language, or 404. */
    method GetAudioByLanguage(language: string) returns (r: Outcome<AudioFile>)
      ensures r.Err? <==> !HasLanguage(collection, language)
      ensures r.Err? ==> r.error == NotFound(language)
      ensures r.Ok? ==> r.value in collection && r.value.language == language
      ensures r.Ok? ==> r.value == collection[FindIndex(collection, language).value]
    {
      var document := FindOne(collection, language);
      if document.None? {
        return Err(NotFound(language));
      }
      var d := document.value;
      r := Ok(AudioFile(d.id, d.language, d.audioUrl, d.textContent));
    }

    /**
     * POST /api/audio: 400 if the language is already present, which changes
     * nothing; otherwise inserts the record with id `language + "_audio"` and
     * returns it.
     */
    method CreateAudioFile(input: AudioFileCreate) returns (r: Outcome<AudioFile>)
      modifies this`collection
      ensures HasLanguage(old(collection), input.language) ==>
        r == Err(AlreadyExists(input.language)) && collection == old(collection)
      ensures !HasLanguage(old(collection), input.language) ==>
        r == Ok(NewDocument(input)) && collection == old(collection) + [NewDocument(input)]
      ensures r.Ok? ==>
        r.value.id == AudioId(input.language) && r.value.language == input.language &&
        r.value.audioUrl == input.audioUrl && r.value.textContent == input.textContent
      ensures r.Ok? ==> FindOne(collection, input.language) == Some(r.value)
      ensures UniqueLanguages(old(collection)) ==> UniqueLanguages(collection)
      ensures IdsDerived(old(collection)) ==> IdsDerived(collection)
    {
      var existing := FindOne(collection, input.language);
      if existing.Some? {
        return Err(AlreadyExists(input.language));
      }
      var document := AudioFile(AudioId(input.language), input.language, input.audioUrl, input.textContent);
      FindOneAfterInsert(collection, document);
      if UniqueLanguages(collection) {
        InsertKeepsUnique(collection, document);
      }
      if IdsDerived(collection) {
        InsertKeepsIdsDerived(collection, input);
      }
      collection := collection + [document];
      r := Ok(AudioFile(document.id, document.language, document.audioUrl, document.textContent));
    }

    /**
     * PUT /api/audio/{language}: 404 if absent, which changes nothing; otherwise
     * sets the URL and the text of the first record with that language (the
     * language in the body is ignored) and returns the updated record.
     */
    method UpdateAudioFile(language: string, input: AudioFileCreate) returns (r: Outcome<AudioFile>)
      modifies this`collection
      ensures match FindIndex(old(collection), language)
        case None => r == Err(NotFound(language)) && collection == old(collection)
        case Some(i) =>
          collection == old(collection)[i := old(collection)[i].(audioUrl := input.audioUrl, textContent := input.textContent)] &&
          r == Ok(collection[i])
      ensures r.Ok? ==>
        r.value.language == language && r.value.audioUrl == input.audioUrl && r.value.textContent == input.textContent
      ensures UniqueLanguages(old(collection)) ==> UniqueLanguages(collection)
      ensures IdsDerived(old(collection)) ==> IdsDerived(collection)
    {
      ghost var before := collection;
      var result := UpdateOne(collection, language, input.audioUrl, input.textContent);
      collection := result.docs;
      if UniqueLanguages(before) {
        UpdateKeepsUnique(before, language, input.audioUrl, input.textContent);
      }
      if IdsDerived(before) {
        UpdateKeepsIdsDerived(before, language, input.audioUrl, input.textContent);
      }
      if result.count == 0 {
        return Err(NotFound(language));
      }
      FindOneAfterUpdate(before, language, input.audioUrl, input.textContent);
      var updated := FindOne(collection, language);
      var d := updated.value;
      r := Ok(AudioFile(d.id, d.language, d.audioUrl, d.textContent));
    }

    /**
     * DELETE /api/audio/{language}: 404 if absent, which changes nothing;
     * otherwise removes the first record with that language, keeps the others
     * in order and confirms with a message.
     */
    method DeleteAudioFile(language: string) returns (r: Outcome<string>)
      modifies this`collection
      ensures match FindIndex(old(collection), language)
        case None => r == Err(NotFound(language)) && collection == old(collection)
        case Some(i) => r == Ok(DeletedMessage(language)) && collection == old(collection)[..i] + old(collection)[i + 1..]
      ensures UniqueLanguages(old(collection)) ==> UniqueLanguages(collection) && !HasLanguage(collection, language)
      ensures IdsDerived(old(collection)) ==> IdsDerived(collection)
    {
      ghost var before := collection;
      var result := DeleteOne(collection, language);
      collection := result.docs;
      if UniqueLanguages(before) {
        DeleteKeepsUnique(before, language);
        FindOneAfterDelete(before, language);
      }
      if IdsDerived(before) {
        DeleteKeepsIdsDerived(before, language);
      }
      if result.count == 0 {
        return Err(NotFound(language));
      }
      r := Ok(DeletedMessage(language));
    }
  }

  /**
   * A client session over the seed: create, read back, duplicate create,
   * update, delete and read again; the in-memory list handler never sees the
   * new record.
   */
  method Walkthrough()
  {
    SampleAudioDataWellFormed();
    var server := new AudioServer(SampleAudioData);
    var all := server.GetAllAudio();
    assert all == SampleAudioData;

    var french := AudioFileCreate("french", "u", "t");
    assert !HasLanguage(server.collection, "french");
    var created := server.CreateAudioFile(french);
    assert AudioId("french") == "french_audio";
    assert created == Ok(AudioFile("french_audio", "french", "u", "t"));

    var got := server.GetAudioByLanguage("french");
    assert got == created;

    var again := server.CreateAudioFile(french);
    assert again.Err? && again.error.statusCode == 400;

    var listed := GetAllAudioInMemory();
    assert !HasLanguage(listed, "french");
    all := server.GetAllAudio();
    assert |all| == 3 && all[2] == created.value;

    var updated := server.UpdateAudioFile("french", AudioFileCreate("ignored", "u2", "t2"));
    assert updated == Ok(AudioFile("french_audio", "french", "u2", "t2"));

    var deleted := server.DeleteAudioFile("french");
    assert deleted.Ok?;
    var gone := server.GetAudioByLanguage("french");
    assert gone == Err(NotFound("french")) && gone.error.statusCode == 404;
  }
}
