/**
 * The audio_files collection as the handlers use it, with the database driver
 * abstracted to a sequence of documents in storage order. `find_one`,
 * `update_one` and `delete_one` filtered by language act on the FIRST
 * matching document; `insert_one` appends. Each operation is written as a
 * scan over the sequence, and its contract ties it to the index of the first
 * match.
 */
module Collection {
  import opened Records

  datatype Option<T> = None | Some(value: T)

  /** The outcome of `update_one` / `delete_one`: the new contents and the matched or deleted count. */
  datatype WriteResult = WriteResult(docs: seq<AudioFile>, count: nat)

  /** Some document has the given language. */
  ghost predicate HasLanguage(docs: seq<AudioFile>, language: string)
  {
    exists i :: 0 <= i < |docs| && docs[i].language == language
  }

  /** The position of the first document with the given language, if any. */
  function FindIndex(docs: seq<AudioFile>, language: string): (r: Option<nat>)
    ensures r.None? <==> !HasLanguage(docs, language)
    ensures r.Some? ==> r.value < |docs| && docs[r.value].language == language
    ensures r.Some? ==> forall j :: 0 <= j < r.value ==> docs[j].language != language
  {
    if docs == [] then None
    else if docs[0].language == language then Some(0)
    else
      match FindIndex(docs[1..], language)
      case None =>
        assert forall j :: 0 < j < |docs| ==> docs[j] == docs[1..][j - 1];
        None
      case Some(i) => Some(i + 1)
  }

  /** `find_one({"language": language})`: the first document with that language. */
  function FindOne(docs: seq<AudioFile>, language: string): (r: Option<AudioFile>)
    ensures r.None? <==> !HasLanguage(docs, language)
    ensures r.Some? ==> r.value in docs && r.value.language == language
    ensures r.Some? ==> r.value == docs[FindIndex(docs, language).value]
  {
    match FindIndex(docs, language)
    case None => None
    case Some(i) => Some(docs[i])
  }

  /** The `$set` of an update request: only the URL and the text change. */
  function SetFields(d: AudioFile, audioUrl: string, textContent: string): AudioFile
  {
    d.(audioUrl := audioUrl, textContent := textContent)
  }

  /**
   * `update_one({"language": language}, {"$set": ...})`: sets the two mutable
   * fields of the first matching document; the count is the matched count.
   */
  function UpdateOne(docs: seq<AudioFile>, language: string, audioUrl: string, textContent: string): (r: WriteResult)
    ensures FindIndex(docs, language).None? ==> r == WriteResult(docs, 0)
    ensures FindIndex(docs, language).Some? ==>
      var i := FindIndex(docs, language).value;
      r == WriteResult(docs[i := SetFields(docs[i], audioUrl, textContent)], 1)
  {
    if docs == [] then WriteResult(docs, 0)
    else if docs[0].language == language then
      WriteResult([SetFields(docs[0], audioUrl, textContent)] + docs[1..], 1)
    else
      var rest := UpdateOne(docs[1..], language, audioUrl, textContent);
      WriteResult([docs[0]] + rest.docs, rest.count)
  }

  /**
   * `delete_one({"language": language})`: removes the first matching document
   * and keeps the others in order; the count is the deleted count.
   */
  function DeleteOne(docs: seq<AudioFile>, language: string): (r: WriteResult)
    ensures FindIndex(docs, language).None? ==> r == WriteResult(docs, 0)
    ensures FindIndex(docs, language).Some? ==>
      var i := FindIndex(docs, language).value;
      r == WriteResult(docs[..i] + docs[i + 1..], 1)
  {
    if docs == [] then WriteResult(docs, 0)
    else if docs[0].language == language then WriteResult(docs[1..], 1)
    else
      var rest := DeleteOne(docs[1..], language);
      WriteResult([docs[0]] + rest.docs, rest.count)
  }

  /** A document appended for a language not yet present is what `find_one` then returns. */
  lemma {:induction false} FindOneAfterInsert(docs: seq<AudioFile>, d: AudioFile)
    requires !HasLanguage(docs, d.language)
    ensures FindIndex(docs + [d], d.language) == Some(|docs|)
    ensures FindOne(docs + [d], d.language) == Some(d)
  {
    var after := docs + [d];
    assert after[|docs|].language == d.language;
    assert forall j :: 0 <= j < |docs| ==> after[j] == docs[j];
  }

  /** Appending a document leaves the first match of every other language where it was. */
  lemma {:induction false} FindOneOtherAfterInsert(docs: seq<AudioFile>, d: AudioFile, language: string)
    requires language != d.language
    ensures FindOne(docs + [d], language) == FindOne(docs, language)
  {
    var after := docs + [d];
    assert forall j :: 0 <= j < |docs| ==> after[j] == docs[j];
    if HasLanguage(after, language) {
      var k :| 0 <= k < |after| && after[k].language == language;
      assert k < |docs| && docs[k].language == language;
    }
  }

  /** Check-then-insert keeps at most one record per language. */
  lemma {:induction false} InsertKeepsUnique(docs: seq<AudioFile>, d: AudioFile)
    requires UniqueLanguages(docs) && !HasLanguage(docs, d.language)
    ensures UniqueLanguages(docs + [d])
  {
    var after := docs + [d];
    forall i, j | 0 <= i < j < |after|
      ensures after[i].language != after[j].language
    {
      if j == |docs| {
        assert after[i] == docs[i];
      }
    }
  }

  /** Inserting a record with its derived id keeps every id derived. */
  lemma {:induction false} InsertKeepsIdsDerived(docs: seq<AudioFile>, input: AudioFileCreate)
    requires IdsDerived(docs)
    ensures IdsDerived(docs + [NewDocument(input)])
  {
    var after := docs + [NewDocument(input)];
    forall i | 0 <= i < |after|
      ensures after[i].id == AudioId(after[i].language)
    {
      if i < |docs| {
        assert after[i] == docs[i];
      }
    }
  }

  /** An update changes neither the length, nor any language, nor any id. */
  lemma {:induction false} UpdateOneKeepsKeys(docs: seq<AudioFile>, language: string, audioUrl: string, textContent: string)
    ensures var after := UpdateOne(docs, language, audioUrl, textContent).docs;
      |after| == |docs| &&
      forall j :: 0 <= j < |docs| ==> after[j].language == docs[j].language && after[j].id == docs[j].id
  {
  }

  /** After an update, `find_one` on that language returns the updated document at the same position. */
  lemma {:induction false} FindOneAfterUpdate(docs: seq<AudioFile>, language: string, audioUrl: string, textContent: string)
    requires HasLanguage(docs, language)
    ensures var i := FindIndex(docs, language).value;
      var after := UpdateOne(docs, language, audioUrl, textContent).docs;
      FindIndex(after, language) == Some(i) &&
      FindOne(after, language) == Some(SetFields(docs[i], audioUrl, textContent))
  {
    var i := FindIndex(docs, language).value;
    var after := UpdateOne(docs, language, audioUrl, textContent).docs;
    UpdateOneKeepsKeys(docs, language, audioUrl, textContent);
    assert after[i].language == language;
  }

  /** Updates keep at most one record per language. */
  lemma {:induction false} UpdateKeepsUnique(docs: seq<AudioFile>, language: string, audioUrl: string, textContent: string)
    requires UniqueLanguages(docs)
    ensures UniqueLanguages(UpdateOne(docs, language, audioUrl, textContent).docs)
  {
    UpdateOneKeepsKeys(docs, language, audioUrl, textContent);
  }

  /** Updates keep every id derived. */
  lemma {:induction false} UpdateKeepsIdsDerived(docs: seq<AudioFile>, language: string, audioUrl: string, textContent: string)
    requires IdsDerived(docs)
    ensures IdsDerived(UpdateOne(docs, language, audioUrl, textContent).docs)
  {
    UpdateOneKeepsKeys(docs, language, audioUrl, textContent);
  }

  /** Removing one position from a store with one record per language keeps that property. */
  lemma {:induction false} RemoveAtKeepsUnique(docs: seq<AudioFile>, k: nat)
    requires k < |docs| && UniqueLanguages(docs)
    ensures UniqueLanguages(docs[..k] + docs[k + 1..])
  {
    var after := docs[..k] + docs[k + 1..];
    forall i, j | 0 <= i < j < |after|
      ensures after[i].language != after[j].language
    {
      var i' := if i < k then i else i + 1;
      var j' := if j < k then j else j + 1;
      assert after[i] == docs[i'];
      assert after[j] == docs[j'];
    }
  }

  /** Deleting one document keeps at most one record per language. */
  lemma {:induction false} DeleteKeepsUnique(docs: seq<AudioFile>, language: string)
    requires UniqueLanguages(docs)
    ensures UniqueLanguages(DeleteOne(docs, language).docs)
  {
    if HasLanguage(docs, language) {
      RemoveAtKeepsUnique(docs, FindIndex(docs, language).value);
    }
  }

  /** Deleting one document keeps every id derived. */
  lemma {:induction false} DeleteKeepsIdsDerived(docs: seq<AudioFile>, language: string)
    requires IdsDerived(docs)
    ensures IdsDerived(DeleteOne(docs, language).docs)
  {
    var after := DeleteOne(docs, language).docs;
    if HasLanguage(docs, language) {
      var k := FindIndex(docs, language).value;
      forall i | 0 <= i < |after|
        ensures after[i].id == AudioId(after[i].language)
      {
        assert after[i] == docs[if i < k then i else i + 1];
      }
    }
  }

  /** In a store with one record per language, a deleted language can no longer be found. */
  lemma {:induction false} FindOneAfterDelete(docs: seq<AudioFile>, language: string)
    requires UniqueLanguages(docs)
    ensures FindOne(DeleteOne(docs, language).docs, language) == None
  {
    var after := DeleteOne(docs, language).docs;
    if HasLanguage(docs, language) {
      var k := FindIndex(docs, language).value;
      forall i | 0 <= i < |after|
        ensures after[i].language != language
      {
        var i' := if i < k then i else i + 1;
        assert after[i] == docs[i'];
        if i' > k {
          assert docs[k].language != docs[i'].language;
        }
      }
    }
  }
}
