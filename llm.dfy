/**
 * The language model as the pipeline sees it: each `ainvoke` call either returns
 * a reply text or raises. The model, its prompts and the JSON parser are not
 * modelled; a run receives the replies and the parser as values.
 */
module Llm {
  import opened Wrappers
  import opened Text
  import opened JsonValue

  /** The outcome of one `llm.ainvoke(...)` call. */
  datatype Reply = Text(content: string) | Raised(message: string)

  /** `json.loads`: None stands for a JSONDecodeError. */
  type Parser = string -> Option<Json>

  const FENCE: string := "```"
  const JSON_FENCE: string := "```json"

  /** The text after position `from` up to the next fence, or to the end when there is none. */
  function UpToFence(s: string): (r: string)
    ensures IsPrefix(r, s)
    ensures !Contains(r, FENCE)
    ensures |r| == |s| || OccursAt(s, FENCE, |r|)
  {
    match IndexOf(s, FENCE)
    case None => s
    case Some(j) =>
      assert !Contains(s[..j], FENCE) by {
        forall i | 0 <= i <= j ensures !OccursAt(s[..j], FENCE, i) {
          if OccursAt(s[..j], FENCE, i) {
            assert s[..j][i..i + |FENCE|] == s[i..i + |FENCE|];
            assert OccursAt(s, FENCE, i);
          }
        }
      }
      s[..j]
  }

  /**
   * The code-fence handling of the reply parsers: the text between the first
   * "```json" and the next "```" if "```json" occurs; otherwise the text between
   * the first and second "```" if "```" occurs; otherwise the whole content.
   */
  function FencedContent(content: string): (r: string)
    ensures !Contains(content, FENCE) ==> r == content
    ensures Contains(content, JSON_FENCE) ==>
              var i := IndexOf(content, JSON_FENCE).value;
              r == UpToFence(content[i + 7..])
    ensures !Contains(content, JSON_FENCE) && Contains(content, FENCE) ==>
              var i := IndexOf(content, FENCE).value;
              r == UpToFence(content[i + 3..])
  {
    match IndexOf(content, JSON_FENCE)
    case Some(i) =>
      assert OccursAt(content, FENCE, i) by {
        assert content[i..i + 3] == content[i..i + 7][..3];
      }
      UpToFence(content[i + 7..])
    case None =>
      match IndexOf(content, FENCE)
      case Some(i) => UpToFence(content[i + 3..])
      case None => content
  }

  /** The first occurrence of `pat` in `pre + pat + post` is right after `pre` when `pre` lacks its first character. */
  lemma FirstOccurrenceAfter(pre: string, pat: string, post: string)
    requires pat != [] && pat[0] !in pre
    ensures IndexOf(pre + pat + post, pat) == Some(|pre|)
  {
    var s := pre + pat + post;
    assert OccursAt(s, pat, |pre|) by { assert s[|pre|..|pre| + |pat|] == pat; }
    forall j | 0 <= j < |pre| ensures !OccursAt(s, pat, j) {
      assert s[j] == pre[j];
      assert s[j] != pat[0];
    }
  }

  /** A reply holding one ```json block (and no backtick before or inside it) yields exactly the block's body. */
  lemma FencedJsonBlock(pre: string, body: string, post: string)
    requires '`' !in pre && '`' !in body
    ensures FencedContent(pre + JSON_FENCE + body + FENCE + post) == body
  {
    var content := pre + JSON_FENCE + body + FENCE + post;
    FirstOccurrenceAfter(pre, JSON_FENCE, body + FENCE + post);
    assert content == pre + JSON_FENCE + (body + FENCE + post);
    assert content[|pre| + 7..] == body + FENCE + post;
    FirstOccurrenceAfter(body, FENCE, post);
  }
}
