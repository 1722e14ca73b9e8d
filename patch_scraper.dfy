/** The patch-note command of the information bot: look the version up in the table of
    patch-note pages, then post the generated summary in pieces of at most 1500 characters.
    Scraping the page and generating the summary are calls to the network; their outputs
    are parameters here. */
module PatchScraper {
  import opened Wrappers
  import opened TextUtil

  const ChunkSize: nat := 1500

  /** The versions the command knows, with their patch-note pages. */
  const PatchNoteUrls: map<string, string> :=
    map["7.3" := "https://na.finalfantasyxiv.com/lodestone/topics/detail/c04405c6cbe8519a0b6c8aa5e4d88a5d447419c9"]

  datatype Error = KeyError(key: string)

  /** What the command posted, and the exception it ended with, if any. */
  datatype Outcome = Outcome(sent: seq<string>, error: Option<Error>)

  /** The messages that carry a reply: the text itself when it is at most 1500 characters long,
      otherwise its consecutive 1500-character slices. */
  function ReplyMessages(text: string): (msgs: seq<string>)
    ensures |text| <= ChunkSize ==> msgs == [text]
    ensures |text| > ChunkSize ==> |msgs| >= 2
  {
    if |text| > ChunkSize then
      SlicesShape(text, ChunkSize);
      Slices(text, ChunkSize)
    else [text]
  }

  /** Nothing of the reply is lost or reordered: the posted messages put together give the text. */
  lemma ReplyMessagesConcat(text: string)
    ensures Concat(ReplyMessages(text)) == text
  {
    if |text| > ChunkSize {
      SlicesConcat(text, ChunkSize);
    }
  }

  /** A long reply is cut into slices `text[i:i+1500]` for i = 0, 1500, 3000, ...: each is non-empty and
      at most 1500 characters, all but the last are exactly 1500, and there are ceil(len / 1500) of them. */
  lemma ReplyMessagesShape(text: string)
    requires |text| > ChunkSize
    ensures var msgs := ReplyMessages(text);
      && (forall k :: 0 <= k < |msgs| ==> 0 < |msgs[k]| <= ChunkSize)
      && (forall k :: 0 <= k < |msgs| - 1 ==> |msgs[k]| == ChunkSize)
      && (|msgs| - 1) * ChunkSize < |text| <= |msgs| * ChunkSize
      && (forall k :: 0 <= k < |msgs| ==>
            k * ChunkSize < |text| &&
            msgs[k] == text[k * ChunkSize .. if (k + 1) * ChunkSize <= |text| then (k + 1) * ChunkSize else |text|])
  {
    SlicesShape(text, ChunkSize);
    forall k | 0 <= k < |ReplyMessages(text)|
      ensures k * ChunkSize < |text|
      ensures ReplyMessages(text)[k] ==
        text[k * ChunkSize .. if (k + 1) * ChunkSize <= |text| then (k + 1) * ChunkSize else |text|]
    {
      SliceAt(text, ChunkSize, k);
    }
  }

  /** `summarize_patchnote`: announce the scrape, look the version up (an unknown version raises
      `KeyError` there, before anything is summarised), announce the summary, post the reply. */
  function SummarizePatchnote(version: string, replyText: string): (o: Outcome)
    ensures o.error.Some? <==> version !in PatchNoteUrls
    ensures o.error.Some? ==> o.sent == ["Scraping patch note for " + version + "..."]
    ensures o.error.None? ==>
      |o.sent| >= 3 && Concat(o.sent[2..]) == replyText
  {
    var scraping := "Scraping patch note for " + version + "...";
    if version !in PatchNoteUrls then
      Outcome([scraping], Some(KeyError(version)))
    else
      var sent := [scraping, "Summarizing patch note for " + version + "..."] + ReplyMessages(replyText);
      ReplyMessagesConcat(replyText);
      assert sent[2..] == ReplyMessages(replyText);
      Outcome(sent, None)
  }
}
