/** A LangChain `Document`: extracted text plus a metadata dictionary. */
module Documents {

  /** Metadata values are modelled as strings; the `source` entry is the one the system reads and writes. */
  datatype Document = Document(pageContent: string, metadata: map<string, string>)

  const SourceKey := "source"

  /** `metadata.get(key, default)` */
  function MetadataGet(d: Document, key: string, default: string): (v: string)
    ensures key in d.metadata ==> v == d.metadata[key]
    ensures key !in d.metadata ==> v == default
  {
    if key in d.metadata then d.metadata[key] else default
  }
}
