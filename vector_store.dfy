/** A vector-store entry and its `text_or_image_required` validator. */
module VectorStore {
  import opened Common

  const UUID_BOUND: nat := 0x1_0000_0000_0000_0000_0000_0000_0000_0000

  /** A 128-bit UUID. */
  type Uuid = x: nat | x < UUID_BOUND

  /** `VectorStoreEntry`: an id, optional text, optional image bytes and a
      metadata dict. */
  datatype VectorStoreEntry = VectorStoreEntry(
    id: Uuid,
    text: Option<string>,
    imageBytes: Option<seq<bv8>>,
    metadata: map<string, Value>)

  /** An entry built from only its id: every other field takes its default
      (`text=None`, `image_bytes=None`, `metadata={}`). */
  function DefaultEntry(id: Uuid): (e: VectorStoreEntry)
    ensures e.id == id && e.metadata == map[]
    ensures !HasText(e) && !HasImage(e)
  {
    VectorStoreEntry(id, None, None, map[])
  }

  /** `bool(self.text)`: present and non-empty. */
  predicate HasText(e: VectorStoreEntry) {
    e.text.Some? && e.text.value != ""
  }

  /** `bool(self.image_bytes)`: present and non-empty. */
  predicate HasImage(e: VectorStoreEntry) {
    e.imageBytes.Some? && e.imageBytes.value != []
  }

  const TEXT_OR_IMAGE_MESSAGE: string := "Either text or image_bytes must be provided."

  /** `text_or_image_required` as written: it raises when the text is
      missing or empty, OR when image bytes are present, and otherwise
      returns the entry unchanged. */
  function TextOrImageRequired(e: VectorStoreEntry): (r: Result<VectorStoreEntry, string>)
    ensures r.Success? <==> HasText(e) && !HasImage(e)
    ensures r.Success? ==> r.value == e
    ensures r.Failure? ==> r.error == TEXT_OR_IMAGE_MESSAGE
  {
    if !HasText(e) || HasImage(e) then Failure(TEXT_OR_IMAGE_MESSAGE) else Success(e)
  }

  /** Image bytes are rejected even next to non-empty text. */
  lemma ImageRejectedEvenWithText(e: VectorStoreEntry)
    requires HasImage(e)
    ensures TextOrImageRequired(e).Failure?
  {
  }

  /** An entry whose text is `None` or `""` is always rejected. */
  lemma MissingTextRejected(e: VectorStoreEntry)
    requires e.text == None || e.text == Some("")
    ensures TextOrImageRequired(e).Failure?
  {
  }

  /** A default-constructed entry is rejected. */
  lemma DefaultEntryRejected(id: Uuid)
    ensures DefaultEntry(id).text == None && DefaultEntry(id).imageBytes == None && DefaultEntry(id).metadata == map[]
    ensures TextOrImageRequired(DefaultEntry(id)) == Failure(TEXT_OR_IMAGE_MESSAGE)
  {
  }

  /** As written, an image-only entry, the case the error message names as
      sufficient, is rejected. */
  lemma ImageOnlyEntryRejected()
    ensures var e := VectorStoreEntry(0, None, Some([0x89]), map[]);
      HasImage(e) && TextOrImageRequired(e).Failure?
  {
  }

  /** The validator its message describes: reject only an entry with
      neither text nor image bytes. */
  function TextOrImagePresent(e: VectorStoreEntry): (r: Result<VectorStoreEntry, string>)
    ensures r.Success? <==> HasText(e) || HasImage(e)
    ensures r.Success? ==> r.value == e
    ensures r.Failure? ==> r.error == TEXT_OR_IMAGE_MESSAGE
  {
    if !(HasText(e) || HasImage(e)) then Failure(TEXT_OR_IMAGE_MESSAGE) else Success(e)
  }

  /** The intended validator accepts exactly the entries the written one
      accepts, plus those carrying image bytes. */
  lemma IntendedAcceptsMore(e: VectorStoreEntry)
    ensures TextOrImageRequired(e).Success? ==> TextOrImagePresent(e).Success?
    ensures TextOrImagePresent(e).Success? && !TextOrImageRequired(e).Success? <==> HasImage(e)
  {
  }
}
