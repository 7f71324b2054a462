/** Textbook content as the vector index returns it: each chunk carries
  * the metadata the agents read. A missing metadata string is the empty
  * string, which JavaScript's `||` treats the same way. */
module Retrieval {

  datatype Chunk = Chunk(contentType: string, text: string, section: string, topic: string)

  /** `chunk.metadata?.contentType || 'explanation'`. */
  function Kind(c: Chunk): (k: string)
    ensures k != ""
    ensures c.contentType != "" ==> k == c.contentType
  {
    if c.contentType == "" then "explanation" else c.contentType
  }

  /** `chunks[0]?.metadata?.topic || 'Unknown'`. */
  function TopicOf(chunks: seq<Chunk>): (t: string)
    ensures t != ""
    ensures |chunks| > 0 && chunks[0].topic != "" ==> t == chunks[0].topic
  {
    if |chunks| > 0 && chunks[0].topic != "" then chunks[0].topic else "Unknown"
  }
}
