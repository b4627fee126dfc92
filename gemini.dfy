/** The SVG generator client (services/geminiService.ts). The network call
    is not modelled: its outcome is a parameter. What is modelled is which
    paths return null and the cleanup applied to the model's text. */
module Gemini {
  import opened Types
  import opened Strings

  /** `text.replace(/```xml/g, '').replace(/```svg/g, '').replace(/```/g, '').trim()`
      (line 29). */
  function Cleanup(text: string): (r: string)
    ensures NoFence(r)
    ensures Trimmed(r)
  {
    var stripped := RemoveAll(RemoveAll(RemoveAll(text, "```xml"), "```svg"), Fence);
    RemoveFenceLeavesNone(RemoveAll(RemoveAll(text, "```xml"), "```svg"));
    TrimKeepsNoFence(stripped);
    Trim(stripped)
  }

  /** A tagged fence cannot occur where no plain fence does. */
  lemma TaggedFenceAbsent(s: string, pat: string)
    requires |pat| >= 3 && pat[..3] == Fence && NoFence(s)
    ensures Absent(s, pat)
  {
    forall i | 0 <= i <= |s|
      ensures !OccursAt(s, pat, i)
    {
      if OccursAt(s, pat, i) {
        assert s[i..i + 3] == pat[..3];
        assert FenceAt(s, i);
      }
    }
  }

  /** Text without fences and without surrounding whitespace (in particular
      SVG with no backticks at all, trimmed) comes through unchanged. */
  lemma CleanupKeepsClean(text: string)
    requires NoFence(text) && Trimmed(text)
    ensures Cleanup(text) == text
  {
    TaggedFenceAbsent(text, "```xml");
    RemoveAllAbsent(text, "```xml");
    TaggedFenceAbsent(text, "```svg");
    RemoveAllAbsent(text, "```svg");
    NoFenceIsAbsent(text);
    RemoveAllAbsent(text, Fence);
  }

  /** Cleaning twice is cleaning once. */
  lemma CleanupIdempotent(text: string)
    ensures Cleanup(Cleanup(text)) == Cleanup(text)
  {
    CleanupKeepsClean(Cleanup(text));
  }

  /** What the model call did: it threw, or it answered with a text (the
      empty string standing for a missing text as well). */
  datatype Response = Threw | Reply(text: string)

  /** `generateSVGFromPrompt` (lines 3-35). The key is `GEMINI_API_KEY`,
      else `API_KEY` (an empty value counts as unset). Without a key no
      request is made and the result is null; a thrown error or an empty text
      gives null; otherwise the cleaned text. `requested` reports whether the
      model was called. */
  method GenerateSvg(geminiKey: string, apiKey: string, response: Response)
    returns (svg: Option<string>, requested: bool)
    ensures requested <==> geminiKey != "" || apiKey != ""
    ensures !requested ==> svg == None
    ensures requested && response.Threw? ==> svg == None
    ensures requested && response.Reply? && response.text == "" ==> svg == None
    ensures requested && response.Reply? && response.text != "" ==> svg == Some(Cleanup(response.text))
    ensures svg.Some? ==> NoFence(svg.value) && Trimmed(svg.value)
  {
    var key := if geminiKey != "" then geminiKey else apiKey;
    if key == "" {
      return None, false;
    }
    requested := true;
    match response
    case Threw =>
      svg := None;
    case Reply(text) =>
      if text == "" {
        svg := None;
      } else {
        svg := Some(Cleanup(text));
      }
  }
}
