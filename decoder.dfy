/**
 * The Social Context Decoder: a slang term is looked up by substring in the
 * slang list, and the risk level of a found entry picks the badge colour.
 */
module Decoder {
  import opened Wrappers
  import opened Strings
  import opened Loading

  /** One entry of the slang list; its other fields (emotions, scenarios, source, rank) are display only. */
  datatype SlangEntry = SlangEntry(term: string, riskLevel: string)

  /** What a search stores in `result`: the entry found, or 'not_found'. */
  datatype SearchResult = Found(entry: SlangEntry) | NotFound

  /** The badge colour for a risk level. */
  datatype Badge = Red | Green | Yellow

  /** The index of the first entry whose term contains `needle` (the predicate given to `find`). */
  function FirstMatch(entries: seq<SlangEntry>, needle: string): (r: Option<nat>)
    ensures r.Some? ==> r.value < |entries| && Contains(entries[r.value].term, needle)
    ensures r.Some? ==> forall j :: 0 <= j < r.value ==> !Contains(entries[j].term, needle)
    ensures r.None? ==> forall j :: 0 <= j < |entries| ==> !Contains(entries[j].term, needle)
  {
    if entries == [] then None
    else if Contains(entries[0].term, needle) then Some(0)
    else match FirstMatch(entries[1..], needle)
      case None => None
      case Some(k) => Some(k + 1)
  }

  /** `entries.find(item => item.term.includes(needle)) || 'not_found'`. */
  function Find(entries: seq<SlangEntry>, needle: string): (r: SearchResult)
    ensures r.Found? <==> exists j :: 0 <= j < |entries| && Contains(entries[j].term, needle)
    ensures r.Found? ==> Contains(r.entry.term, needle)
    ensures r.Found? ==>
      exists k :: 0 <= k < |entries| && entries[k] == r.entry && forall j :: 0 <= j < k ==> !Contains(entries[j].term, needle)
  {
    match FirstMatch(entries, needle)
    case None => NotFound
    case Some(k) => Found(entries[k])
  }

  /** The lower-cased risk level mentions `word`. */
  predicate Mentions(level: string, word: string)
  {
    Contains(ToLower(level), word)
  }

  /**
   * `getRiskBadge(level)`: yellow by default, green when the level says
   * "safe", red when it says "high" or "offensive" (the last test wins).
   */
  function RiskBadge(level: string): (b: Badge)
    ensures b == Red <==> Mentions(level, "high") || Mentions(level, "offensive")
    ensures b == Green <==> !Mentions(level, "high") && !Mentions(level, "offensive") && Mentions(level, "safe")
    ensures b == Yellow <==> !Mentions(level, "high") && !Mentions(level, "offensive") && !Mentions(level, "safe")
  {
    var lower := ToLower(level);
    var isLow := Contains(lower, "safe");
    var isMedium := Contains(lower, "medium");  // computed by the source and never used
    var isHigh := Contains(lower, "high") || Contains(lower, "offensive");
    var styles := Yellow;
    var styles := if isLow then Green else styles;
    if isHigh then Red else styles
  }

  /** The badge does not depend on letter case: a level and its lower-cased form get the same colour. */
  lemma RiskBadgeIgnoresCase(level: string)
    ensures RiskBadge(ToLower(level)) == RiskBadge(level)
  {
    ToLowerIdempotent(level);
  }

  /** A level that says both "safe" and "offensive" (or "high") is red. */
  lemma HighBeatsSafe(level: string)
    requires Mentions(level, "safe")
    requires Mentions(level, "high") || Mentions(level, "offensive")
    ensures RiskBadge(level) == Red
  {
  }

  class SlangDecoder {
    /** The slang list the component searches. */
    const entries: seq<SlangEntry>
    var searchTerm: string
    var result: Option<SearchResult>
    var isLoading: bool
    /** The writes of `isLoading` and the store of `result`, in order. */
    ghost var log: seq<LoadEvent>

    constructor (entries: seq<SlangEntry>)
      ensures this.entries == entries
      ensures searchTerm == [] && result == None && !isLoading && log == []
    {
      this.entries := entries;
      searchTerm := [];
      result := None;
      isLoading := false;
      log := [];
    }

    /** Typing in the search box. */
    method SetSearchTerm(term: string)
      modifies this`searchTerm
      ensures searchTerm == term
    {
      searchTerm := term;
    }

    /** The badge shown for the current result, if an entry is shown. */
    function ShownBadge(): (b: Option<Badge>)
      reads this
      ensures b.Some? <==> result.Some? && result.value.Found?
      ensures b.Some? ==> b.value == RiskBadge(result.value.entry.riskLevel)
    {
      if result.Some? && result.value.Found? then Some(RiskBadge(result.value.entry.riskLevel)) else None
    }

    /**
     * `handleSearch`: ignore a blank term; otherwise raise the loading flag,
     * store the first entry whose term contains the trimmed search term (or
     * 'not_found'), and lower the flag.
     */
    method HandleSearch()
      modifies this`result, this`isLoading, this`log
      ensures Blank(searchTerm) ==>
        result == old(result) && isLoading == old(isLoading) && log == old(log)
      ensures !Blank(searchTerm) ==>
        result == Some(Find(entries, Trim(searchTerm))) && !isLoading && log == old(log) + RaiseStoreLower
    {
      var needle := Trim(searchTerm);
      if needle == [] {
        return;
      }
      isLoading := true;
      log := log + [SetLoading(isLoading)];
      result := Some(Find(entries, needle));
      log := log + [Stored];
      isLoading := false;
      log := log + [SetLoading(isLoading)];
    }

    /**
     * A "Try" button: set the search term to `term` and store the lookup of
     * `term` as given (untrimmed), leaving the loading flag alone.
     */
    method QuickSearch(term: string)
      modifies this`searchTerm, this`result
      ensures searchTerm == term
      ensures result == Some(Find(entries, term))
    {
      searchTerm := term;
      result := Some(Find(entries, term));
    }
  }
}
