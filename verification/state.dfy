/** The record the phases share: the task, what each phase decided, the file
    map, the latest review and test findings, and the usage tracker. */
module DevState {
  import opened Options
  import opened Text
  import opened OrderedMaps
  import opened CodeManager
  import opened UsageTracker

  datatype State = State(
    taskPrompt: string,
    modality: string,
    language: string,
    codes: FileMap,
    reviewComments: string,
    testReports: string,
    errorSummary: string,
    projectName: string,
    outputDirectory: string,
    usage: Tracker)

  /** `DevelopmentState()`: every text empty, no files, no calls recorded. */
  function Init(): (s: State)
    ensures s.taskPrompt == s.modality == s.language == ""
    ensures s.reviewComments == s.testReports == s.errorSummary == ""
    ensures s.projectName == s.outputDirectory == ""
    ensures s.codes == [] && s.usage.calls == []
  {
    State("", "", "", [], "", "", "", "", "", Fresh)
  }

  /** `update_codes`: the files extracted from a reply are written into the
      map, and nothing but the map changes. */
  function UpdateCodes(s: State, content: string): (r: State)
    ensures r.(codes := s.codes) == s
  {
    s.(codes := Update(s.codes, ExtractCodeBlocks(content)))
  }

  lemma UpdateCodesUnique(s: State, content: string)
    requires UniqueKeys(s.codes)
    ensures UniqueKeys(UpdateCodes(s, content).codes)
  {
    UpdateUnique(s.codes, ExtractCodeBlocks(content));
  }

  /** Every extracted file reads its extracted content; every other file
      reads what it read before. */
  lemma UpdateCodesLookup(s: State, content: string, k: string)
    ensures var ex := ExtractCodeBlocks(content);
      Lookup(UpdateCodes(s, content).codes, k) == if k in Keys(ex) then Lookup(ex, k) else Lookup(s.codes, k)
  {
    UpdateLookup(s.codes, ExtractCodeBlocks(content), k);
  }

  /** Files already present keep their places; new ones follow in reply order. */
  lemma UpdateCodesOrder(s: State, content: string)
    ensures var ex := ExtractCodeBlocks(content);
      Keys(UpdateCodes(s, content).codes) == Keys(s.codes) + NewKeys(Keys(ex), Keys(s.codes))
  {
    UpdateKeyOrder(s.codes, ExtractCodeBlocks(content));
  }

  /** A reply from which nothing is extracted leaves the state as it was. */
  lemma UpdateCodesNothing(s: State, content: string)
    requires ExtractCodeBlocks(content) == []
    ensures UpdateCodes(s, content) == s
  {
  }

  /** A reply holding no fence at all changes nothing. */
  lemma UpdateCodesWithoutFence(s: State, content: string)
    requires !Contains(content, Fence)
    ensures UpdateCodes(s, content) == s
  {
    NoFenceNoFiles(content);
  }

  /** Applying the same reply twice is applying it once. */
  lemma UpdateCodesIdempotent(s: State, content: string)
    requires UniqueKeys(s.codes)
    ensures UpdateCodes(UpdateCodes(s, content), content) == UpdateCodes(s, content)
  {
    UpdateIdempotent(s.codes, ExtractCodeBlocks(content));
  }

  /** `get_codes_formatted`. */
  function CodesFormatted(s: State): (r: string)
    ensures r == NoFilesMessage <==> |s.codes| == 0
  {
    FormatCodeForPrompt(s.codes)
  }

  /** The formatted files, read back, are the state's files when every name
      is an ordinary path and no content line is a bare fence. */
  lemma FormattedReadsBack(s: State)
    requires UniqueKeys(s.codes)
    requires forall i :: 0 <= i < |s.codes| ==> PlainKey(s.codes[i].0) && FenceFree(s.codes[i].1)
    ensures ExtractCodeBlocks(CodesFormatted(s)) == s.codes
    ensures UpdateCodes(s.(codes := []), CodesFormatted(s)).codes == s.codes
  {
    PlainRoundTrip(s.codes);
    UpdateEmpty(s.codes);
  }
}
