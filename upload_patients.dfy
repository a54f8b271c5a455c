/**
 * The pure parts of the knowledge-base upload script: turning patient
 * records into documents, and the content preview printed when retrieval
 * is tried out.
 */
module UploadPatients {
  import opened Documents

  /** The two fields of a patient record the script reads: `id` and `content`. */
  datatype Patient = Patient(id: string, content: string)

  /** The `source` every uploaded document is tagged with. */
  const RecordsSource: string := "medical_records"

  /** How many characters of a document the preview shows before it is cut. */
  const PreviewLimit: nat := 100

  /** What is appended to a preview that was cut. */
  const Ellipsis: string := "..."

  /**
   * One document per patient, in the patients' order: the document's text is
   * the patient's content, and its metadata holds the patient's id and the
   * fixed source tag and nothing else.
   */
  method CreateDocuments(patients: seq<Patient>) returns (documents: seq<Document>)
    ensures |documents| == |patients|
    ensures forall i :: 0 <= i < |patients| ==>
              documents[i].pageContent == patients[i].content &&
              documents[i].metadata == Metadata(patients[i].id, RecordsSource)
  {
    documents := [];
    for i := 0 to |patients|
      invariant |documents| == i
      invariant forall j :: 0 <= j < i ==>
                  documents[j].pageContent == patients[j].content &&
                  documents[j].metadata == Metadata(patients[j].id, RecordsSource)
    {
      var doc := Document(patients[i].content, Metadata(patients[i].id, RecordsSource));
      documents := documents + [doc];
    }
  }

  /**
   * The preview of a document's text: the text itself when it is short
   * enough, otherwise its first `PreviewLimit` characters and an ellipsis.
   */
  function ContentPreview(content: string): (preview: string)
    ensures |preview| <= PreviewLimit + |Ellipsis|
    ensures |content| > PreviewLimit <==> |preview| == PreviewLimit + |Ellipsis|
    ensures |content| <= PreviewLimit ==> preview == content
    ensures |content| > PreviewLimit ==>
              preview[..PreviewLimit] == content[..PreviewLimit] && preview[PreviewLimit..] == Ellipsis
  {
    if |content| > PreviewLimit then content[..PreviewLimit] + Ellipsis else content
  }
}
