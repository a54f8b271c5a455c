/** Patient-record documents as stored in, and returned by, the vector index. */
module Documents {

  /** A document's metadata: the patient it describes and where it came from. */
  datatype Metadata = Metadata(patientId: string, source: string)

  /** A retrievable document: its text (`page_content`) and its metadata. */
  datatype Document = Document(pageContent: string, metadata: Metadata)

  /** The `page_content` of each document, in order. */
  function PageContents(docs: seq<Document>): seq<string>
  {
    seq(|docs|, i requires 0 <= i < |docs| => docs[i].pageContent)
  }
}
