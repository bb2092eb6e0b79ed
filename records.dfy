/**
 * The audio records of the API: the stored/response record, the create
 * request body, the id derivation and the seed data, together with the
 * store-wide invariants the handlers are meant to keep.
 */
module Records {

  /** One audio record: `AudioFile` in the API, and the shape of a stored document. */
  datatype AudioFile = AudioFile(id: string, language: string, audioUrl: string, textContent: string)

  /** The body of a create or update request (`AudioFileCreate`). */
  datatype AudioFileCreate = AudioFileCreate(language: string, audioUrl: string, textContent: string)

  /** The id a created record receives: the language followed by "_audio". */
  function AudioId(language: string): string
  {
    language + "_audio"
  }

  /** Two languages never share an id. */
  lemma AudioIdInjective(a: string, b: string)
    ensures AudioId(a) == AudioId(b) ==> a == b
  {
    if AudioId(a) == AudioId(b) {
      assert |a| == |b|;
      assert a == AudioId(a)[..|a|];
      assert b == AudioId(b)[..|b|];
    }
  }

  /** The document a create request turns into. */
  function NewDocument(input: AudioFileCreate): AudioFile
  {
    AudioFile(AudioId(input.language), input.language, input.audioUrl, input.textContent)
  }

  /** At most one record per language. */
  ghost predicate UniqueLanguages(docs: seq<AudioFile>)
  {
    forall i, j :: 0 <= i < j < |docs| ==> docs[i].language != docs[j].language
  }

  /** Every record carries the id derived from its language. */
  ghost predicate IdsDerived(docs: seq<AudioFile>)
  {
    forall i :: 0 <= i < |docs| ==> docs[i].id == AudioId(docs[i].language)
  }

  /** At most one record per id. */
  ghost predicate UniqueIds(docs: seq<AudioFile>)
  {
    forall i, j :: 0 <= i < j < |docs| ==> docs[i].id != docs[j].id
  }

  /** In a store with one record per language and derived ids, ids are unique too. */
  lemma DerivedIdsAreUnique(docs: seq<AudioFile>)
    requires UniqueLanguages(docs) && IdsDerived(docs)
    ensures UniqueIds(docs)
  {
    forall i, j | 0 <= i < j < |docs|
      ensures docs[i].id != docs[j].id
    {
      AudioIdInjective(docs[i].language, docs[j].language);
    }
  }

  /** The two sample records the application ships with (`SAMPLE_AUDIO_DATA`). */
  const SampleAudioData: seq<AudioFile> := [
    AudioFile(
      "english_audio",
      "english",
      "https://www.soundjay.com/misc/sounds/bell-ringing-05.wav",
      "In the ancient land of Eldoria, where skies shimmered and forests, whispered secrets to the wind, lived a dragon named Zephyros. [sarcastically] Not the \"burn it all down\" kind... [giggles] but he was gentle, wise, with eyes like old stars. [whispers] Even the birds fell silent when he passed."),
    AudioFile(
      "arabic_audio",
      "arabic",
      "https://www.soundjay.com/misc/sounds/bell-ringing-04.wav",
      "في أرض إلدوريا القديمة، حيث تتألق السماء وتهمس الغابات بأسرارها للريح، عاش تنين يُدعى زيفيروس. ليس من النوع الذي يحرق كل شيء... بل كان لطيفاً وحكيماً، بعيون مثل النجوم القديمة. حتى الطيور كانت تصمت عندما يمر.")
  ]

  /** The seed holds two records, for distinct languages, each with its derived id. */
  lemma SampleAudioDataWellFormed()
    ensures |SampleAudioData| == 2
    ensures SampleAudioData[0].language == "english" && SampleAudioData[1].language == "arabic"
    ensures UniqueLanguages(SampleAudioData)
    ensures IdsDerived(SampleAudioData)
    ensures UniqueIds(SampleAudioData)
  {
    assert SampleAudioData[0].language != SampleAudioData[1].language;
    DerivedIdsAreUnique(SampleAudioData);
  }
}
