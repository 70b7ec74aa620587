/**
 * `enrich_next_steps(steps)` of app/ui/views/analysis/next_steps_section.py: every
 * next-step line gets one "Learn" link per resource keyword it mentions. The keyword
 * table `RESOURCE_LINKS`, read from a JSON file at import time, is a parameter.
 */
module NextSteps {
  import Text

  /** `RESOURCE_LINKS.items()`: keyword and link, in the dict's order. */
  type Links = seq<(string, string)>

  /** `keyword.lower() in step.lower()`. */
  predicate Mentions(step: string, keyword: string) {
    Text.Contains(Text.Lower(step), Text.Lower(keyword))
  }

  /** The text appended for one keyword; the dash is the source's mis-decoded em dash. */
  function Annotation(keyword: string, link: string): (a: string)
    ensures a != []
  {
    " \U{00E2}\U{20AC}\U{201D} [Learn " + keyword + "](" + link + ")"
  }

  /** What the keyword loop appends to `step` for the entries of `links`. */
  function Suffix(step: string, links: Links): string
    decreases |links|
  {
    if links == [] then []
    else
      var last := links[|links| - 1];
      Suffix(step, links[..|links| - 1]) + (if Mentions(step, last.0) then Annotation(last.0, last.1) else [])
  }

  /** The enriched form of one step. */
  function Enriched(step: string, links: Links): (r: string)
    ensures Text.StartsWith(r, step)
  {
    step + Suffix(step, links)
  }

  /** The text one keyword entry contributes. */
  function Part(step: string, entry: (string, string)): string {
    if Mentions(step, entry.0) then Annotation(entry.0, entry.1) else []
  }

  /** The last entry's part comes last. */
  lemma SuffixLast(step: string, links: Links)
    requires links != []
    ensures Suffix(step, links) == Suffix(step, links[..|links| - 1]) + Part(step, links[|links| - 1])
  {
  }

  lemma Associative(x: string, y: string, z: string)
    ensures (x + y) + z == x + (y + z)
  {
  }

  /** The keywords contribute independently and in table order. */
  lemma {:induction false} SuffixConcat(step: string, a: Links, b: Links)
    ensures Suffix(step, a + b) == Suffix(step, a) + Suffix(step, b)
    decreases |b|
  {
    if b == [] {
      assert a + b == a;
    } else {
      var init := b[..|b| - 1];
      var tail := Part(step, b[|b| - 1]);
      assert (a + b)[|a + b| - 1] == b[|b| - 1];
      assert (a + b)[..|a + b| - 1] == a + init;
      calc {
        Suffix(step, a + b);
        { SuffixLast(step, a + b); }
        Suffix(step, a + init) + tail;
        { SuffixConcat(step, a, init); }
        (Suffix(step, a) + Suffix(step, init)) + tail;
        { Associative(Suffix(step, a), Suffix(step, init), tail); }
        Suffix(step, a) + (Suffix(step, init) + tail);
        { SuffixLast(step, b); }
        Suffix(step, a) + Suffix(step, b);
      }
    }
  }

  /** One keyword adds its annotation exactly when the step mentions it. */
  lemma OneKeyword(step: string, keyword: string, link: string)
    ensures Suffix(step, [(keyword, link)]) == if Mentions(step, keyword) then Annotation(keyword, link) else []
  {
    assert [(keyword, link)][..0] == [];
  }

  /** Nothing is appended exactly when no keyword is mentioned. */
  lemma {:induction false} SuffixEmptyIff(step: string, links: Links)
    ensures Suffix(step, links) == [] <==> forall k :: 0 <= k < |links| ==> !Mentions(step, links[k].0)
    decreases |links|
  {
    if links != [] {
      var init := links[..|links| - 1];
      SuffixEmptyIff(step, init);
      assert forall k :: 0 <= k < |init| ==> init[k] == links[k];
    }
  }

  /** A step that mentions no keyword is returned unchanged, and only such a step is. */
  lemma UnchangedIff(step: string, links: Links)
    ensures Enriched(step, links) == step <==> forall k :: 0 <= k < |links| ==> !Mentions(step, links[k].0)
  {
    SuffixEmptyIff(step, links);
    if Enriched(step, links) == step {
      assert |Suffix(step, links)| == 0;
    }
  }

  /** The nested loops of `enrich_next_steps`. */
  method EnrichNextSteps(steps: seq<string>, links: Links) returns (enriched: seq<string>)
    ensures |enriched| == |steps|
    ensures forall i :: 0 <= i < |steps| ==> enriched[i] == Enriched(steps[i], links)
  {
    enriched := [];
    for i := 0 to |steps|
      invariant |enriched| == i
      invariant forall k :: 0 <= k < i ==> enriched[k] == Enriched(steps[k], links)
    {
      var step := steps[i];
      var updated := step;
      for j := 0 to |links|
        invariant updated == step + Suffix(step, links[..j])
      {
        var (keyword, link) := links[j];
        assert links[..j + 1][..j] == links[..j];
        if Mentions(step, keyword) {
          updated := updated + Annotation(keyword, link);
        }
      }
      assert links[..|links|] == links;
      enriched := enriched + [updated];
    }
  }
}
