/** The shape of a history entry, a `{role, parts}` dictionary whose parts are
    `{type, text}` dictionaries, and how the conversation column renders one.
    Every key may be absent, as the `.get` calls of the renderer allow. */
module Turns {
  import opened Wrappers
  import opened Text

  datatype Part = Part(kind: Option<string>, text: Option<string>)

  datatype Turn = Turn(role: Option<string>, parts: Option<seq<Part>>)

  /** How a rendered entry is introduced: bold "You", bold "Assistant", or the
      raw role in italics. */
  datatype Label = You | Assistant | Other(role: string)

  const TextKind := "text"
  const Newline := "\n"

  /** The entry the app itself stores: one role and a single text part. */
  function TextTurn(role: string, text: string): (t: Turn)
    ensures RoleOf(t) == role
    ensures DisplayText(t) == text
  {
    Turn(Some(role), Some([Part(Some(TextKind), Some(text))]))
  }

  /** `msg.get('role', 'user')`. */
  function RoleOf(t: Turn): (r: string)
    ensures t.role.Some? ==> r == t.role.value
    ensures r == "user" <==> t.role.None? || t.role == Some("user")
  {
    t.role.GetOr("user")
  }

  /** `[p.get('text', '') for p in parts if p.get('type') == 'text']`: the
      texts of the text-typed parts, in order. */
  function TextsOf(parts: seq<Part>): (r: seq<string>)
    ensures |r| <= |parts|
    ensures (forall i :: 0 <= i < |parts| ==> parts[i].kind != Some(TextKind)) ==> r == []
    ensures (forall i :: 0 <= i < |parts| ==> parts[i].kind == Some(TextKind)) ==>
      |r| == |parts| && forall i :: 0 <= i < |r| ==> r[i] == parts[i].text.GetOr("")
  {
    if parts == [] then []
    else
      var rest := TextsOf(parts[1..]);
      if parts[0].kind == Some(TextKind) then [parts[0].text.GetOr("")] + rest else rest
  }

  /** Filtering distributes over concatenation, so the texts keep the order of
      their parts. */
  lemma {:induction false} TextsOfConcat(ps: seq<Part>, qs: seq<Part>)
    ensures TextsOf(ps + qs) == TextsOf(ps) + TextsOf(qs)
  {
    if ps == [] {
      assert ps + qs == qs;
    } else {
      assert (ps + qs)[1..] == ps[1..] + qs;
      TextsOfConcat(ps[1..], qs);
    }
  }

  /** The text shown for an entry: its text parts joined with newlines, or the
      empty string when it has no parts. */
  function DisplayText(t: Turn): (s: string)
    ensures t.parts.None? ==> s == []
    ensures t.parts.Some? ==> s == Join(Newline, TextsOf(t.parts.value))
  {
    match t.parts
    case None => []
    case Some(ps) => if ps == [] then [] else Join(Newline, TextsOf(ps))
  }

  /** Appending a part to an entry's parts: a non-text part changes nothing;
      a text part adds a newline and its text after the texts already there,
      or is the whole display text when there were no text parts before. */
  lemma DisplayTextAppendPart(role: Option<string>, ps: seq<Part>, p: Part)
    ensures p.kind != Some(TextKind) ==>
      DisplayText(Turn(role, Some(ps + [p]))) == DisplayText(Turn(role, Some(ps)))
    ensures p.kind == Some(TextKind) && TextsOf(ps) != [] ==>
      DisplayText(Turn(role, Some(ps + [p]))) == DisplayText(Turn(role, Some(ps))) + Newline + p.text.GetOr("")
    ensures p.kind == Some(TextKind) && TextsOf(ps) == [] ==>
      DisplayText(Turn(role, Some(ps + [p]))) == p.text.GetOr("")
  {
    TextsOfConcat(ps, [p]);
    assert TextsOf([p]) == if p.kind == Some(TextKind) then [p.text.GetOr("")] else [];
    if p.kind != Some(TextKind) {
      assert TextsOf(ps) + [] == TextsOf(ps);
    } else if TextsOf(ps) != [] {
      JoinConcat(Newline, TextsOf(ps), [p.text.GetOr("")]);
    } else {
      assert TextsOf(ps + [p]) == [p.text.GetOr("")];
    }
  }

  /** The label of an entry: "You" for `user` (also when the role is missing),
      "Assistant" for `assistant` and `model`, the raw role otherwise. */
  function LabelOf(t: Turn): (l: Label)
    ensures l == You <==> t.role.None? || t.role == Some("user")
    ensures l == Assistant <==> t.role == Some("assistant") || t.role == Some("model")
    ensures l.Other? ==> t.role == Some(l.role) && l.role !in {"user", "assistant", "model"}
  {
    var role := RoleOf(t);
    if role == "user" then You
    else if role == "assistant" || role == "model" then Assistant
    else Other(role)
  }
}
