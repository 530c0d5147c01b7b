/**
 * The Natural Language Checker of the Semantic Precision component: a
 * sentence that uses the formal 喜爱 outside a literature or art context gets
 * its first 喜爱 replaced by the everyday 喜欢.
 */
module Proofread {
  import opened Wrappers
  import opened Strings
  import opened Loading

  const Formal: string := "喜爱"
  const Casual: string := "喜欢"
  const Literature: string := "文学"
  const Art: string := "艺术"

  const NaturalReason: string := "This sentence looks natural! No changes suggested."
  const FormalityReason: string := "喜爱 is too formal/literary for casual contexts. 喜欢 is more natural here."

  /** The record shown under the checker. */
  datatype Suggestion = Suggestion(original: string, suggested: string, reason: string)

  /** The rewrite applies: 喜爱 occurs and neither 文学 nor 艺术 does. */
  predicate RewriteApplies(text: string)
  {
    Contains(text, Formal) && !Contains(text, Literature) && !Contains(text, Art)
  }

  /** The suggestion `handleProofread` computes for `text`. */
  function Check(text: string): (r: Suggestion)
    ensures r.original == text
    ensures RewriteApplies(text) ==> r.reason == FormalityReason
    ensures !RewriteApplies(text) ==> r.suggested == text && r.reason == NaturalReason
    ensures RewriteApplies(text) ==>
      var i := IndexOf(text, Formal).value;
      && (forall j: nat :: j < i ==> !OccursAt(text, Formal, j))
      && r.suggested == text[..i] + Casual + text[i + |Formal|..]
  {
    var result := Suggestion(text, text, NaturalReason);
    if RewriteApplies(text) then
      Suggestion(text, ReplaceFirst(text, Formal, Casual), FormalityReason)
    else
      result
  }

  /** A change is suggested exactly when the rewrite applies, and it never changes the length. */
  lemma ChangedIffRewriteApplies(text: string)
    ensures |Check(text).suggested| == |text|
    ensures Check(text).suggested != Check(text).original <==> RewriteApplies(text)
  {
    ReplaceFirstChanges(text, Formal, Casual);
  }

  /** The suggestion for a text that mentions literature or art is the text itself. */
  lemma LiteraryContextUnchanged(text: string)
    requires Contains(text, Literature) || Contains(text, Art)
    ensures Check(text) == Suggestion(text, text, NaturalReason)
  {
  }

  /** After the rewrite, the first 喜爱 is gone: 喜欢 stands in its place and nothing before it changed. */
  lemma RewriteRemovesFirstFormal(text: string)
    requires RewriteApplies(text)
    ensures var i := IndexOf(text, Formal).value;
      && OccursAt(Check(text).suggested, Casual, i)
      && !OccursAt(Check(text).suggested, Formal, i)
      && Check(text).suggested[..i] == text[..i]
  {
    var i := IndexOf(text, Formal).value;
    var s := Check(text).suggested;
    assert s[i..i + |Casual|] == Casual;
    assert Casual[1] != Formal[1];
    assert s[i..i + |Formal|][1] != Formal[1];
  }

  class Proofreader {
    var proofText: string
    var suggestion: Option<Suggestion>
    var isLoading: bool
    /** The writes of `isLoading` and the store of `suggestion`, in order. */
    ghost var log: seq<LoadEvent>

    constructor ()
      ensures proofText == [] && suggestion == None && !isLoading && log == []
    {
      proofText := [];
      suggestion := None;
      isLoading := false;
      log := [];
    }

    /** Typing in the text area, or one of the "Try" sentences. */
    method SetProofText(text: string)
      modifies this`proofText
      ensures proofText == text
    {
      proofText := text;
    }

    /**
     * `handleProofread`: ignore a blank text; otherwise raise the loading
     * flag, compute the suggestion, store it and lower the flag.
     */
    method HandleProofread()
      modifies this`suggestion, this`isLoading, this`log
      ensures Blank(proofText) ==>
        suggestion == old(suggestion) && isLoading == old(isLoading) && log == old(log)
      ensures !Blank(proofText) ==>
        suggestion == Some(Check(proofText)) && !isLoading && log == old(log) + RaiseStoreLower
    {
      if Trim(proofText) == [] {
        return;
      }
      isLoading := true;
      log := log + [SetLoading(isLoading)];
      var result := Suggestion(proofText, proofText, NaturalReason);
      if RewriteApplies(proofText) {
        result := Suggestion(proofText, ReplaceFirst(proofText, Formal, Casual), FormalityReason);
      }
      suggestion := Some(result);
      log := log + [Stored];
      isLoading := false;
      log := log + [SetLoading(isLoading)];
    }
  }
}
