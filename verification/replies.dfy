/** Reading the assistant's text out of whatever the remote chat returned.
    The response object is a tagged variant: each attribute the app probes
    with `hasattr` is an optional field. */
module Replies {
  import opened Wrappers

  /** An object that may carry a `text` attribute (`resp.last`, `chat.last`). */
  datatype Last = Last(text: Option<string>)

  /** A reply: its optional `text`, its optional `last`, and `str(resp)`. */
  datatype Response = Response(text: Option<string>, last: Option<Last>, repr: string)

  /** `x.last.text` when `x.last` exists and has a `text` attribute. */
  function LastText(last: Option<Last>): Option<string> {
    match last
    case None => None
    case Some(l) => l.text
  }

  /** The first present candidate, or `fallback` when none is present. */
  function FirstAvailable(candidates: seq<Option<string>>, fallback: string): (r: string)
    ensures (forall j :: 0 <= j < |candidates| ==> candidates[j].None?) ==> r == fallback
    ensures forall i :: 0 <= i < |candidates| && candidates[i].Some? ==>
      (forall j :: 0 <= j < i ==> candidates[j].None?) ==> r == candidates[i].value
  {
    if candidates == [] then fallback
    else if candidates[0].Some? then candidates[0].value
    else FirstAvailable(candidates[1..], fallback)
  }

  /** The reply text: `resp.text`, else `resp.last.text`, else `chat.last.text`
      (`chatLast` is what `chat.last` holds after the call), else `str(resp)`. */
  function ExtractReply(resp: Response, chatLast: Option<Last>): (r: string)
    ensures r == resp.repr || Some(r) in {resp.text, LastText(resp.last), LastText(chatLast)}
  {
    if resp.text.Some? then resp.text.value
    else if resp.last.Some? && resp.last.value.text.Some? then resp.last.value.text.value
    else if chatLast.Some? && chatLast.value.text.Some? then chatLast.value.text.value
    else resp.repr
  }

  /** The extraction never reads a lower-priority source while a higher one is
      present, and falls back to the string form only when all three are absent. */
  lemma ExtractReplyPriority(resp: Response, chatLast: Option<Last>)
    ensures resp.text.Some? ==> ExtractReply(resp, chatLast) == resp.text.value
    ensures resp.text.None? && LastText(resp.last).Some? ==>
      ExtractReply(resp, chatLast) == LastText(resp.last).value
    ensures resp.text.None? && LastText(resp.last).None? && LastText(chatLast).Some? ==>
      ExtractReply(resp, chatLast) == LastText(chatLast).value
    ensures resp.text.None? && LastText(resp.last).None? && LastText(chatLast).None? ==>
      ExtractReply(resp, chatLast) == resp.repr
  {
  }

  /** The if/elif chain of the app is the same as taking the first available
      of its three sources in priority order. */
  lemma ExtractReplyIsFirstAvailable(resp: Response, chatLast: Option<Last>)
    ensures ExtractReply(resp, chatLast) ==
      FirstAvailable([resp.text, LastText(resp.last), LastText(chatLast)], resp.repr)
  {
    var cs := [resp.text, LastText(resp.last), LastText(chatLast)];
    var tail1, tail2: seq<Option<string>> := [LastText(resp.last), LastText(chatLast)], [LastText(chatLast)];
    assert cs[1..] == tail1 && tail1[1..] == tail2 && tail2[1..] == [];
    if resp.text.None? {
      assert FirstAvailable(cs, resp.repr) == FirstAvailable(tail1, resp.repr);
      if LastText(resp.last).None? {
        assert FirstAvailable(tail1, resp.repr) == FirstAvailable(tail2, resp.repr);
        if LastText(chatLast).None? {
          assert FirstAvailable(tail2, resp.repr) == FirstAvailable([], resp.repr);
        }
      }
    }
  }
}
