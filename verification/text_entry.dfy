/** The pending text entry: between a text-tool click and Enter or Escape,
    key presses edit a string anchored at the click position. */
module TextEntry {
  import opened Canvas

  /** The source's TextState record: the typing flag, the anchor, and the
      text typed so far. */
  datatype TextState = TextState(typing: bool, position: Option<Point>, content: string)

  /** No entry in progress. */
  const Idle: TextState := TextState(false, None, "")

  /** A fresh entry anchored at `p`, as a text-tool mouse-up starts it. */
  function Start(p: Point): (t: TextState)
    ensures Active(t) && t.position == Some(p) && t.content == ""
  {
    TextState(true, Some(p), "")
  }

  /** Keys are only listened to while an entry is active and anchored. */
  predicate Active(t: TextState)
  {
    t.typing && t.position.Some?
  }

  /** What a key press asks the board to do. */
  datatype KeyEffect =
    | Ignore                              // leave everything as it is
    | Commit(content: string, at: Point)  // burn the text into the raster and end the entry
    | Become(next: TextState)             // replace the text state, draw nothing

  /** handleKeyDown, as far as the text state is concerned. */
  function OnKey(t: TextState, key: string): (e: KeyEffect)
    ensures !Active(t) ==> e == Ignore
    ensures e.Commit? <==> Active(t) && key == "Enter"
    ensures e.Commit? ==> e.content == t.content && Some(e.at) == t.position
    ensures Active(t) && key == "Escape" ==> e == Become(Idle)
    ensures Active(t) && key == "Backspace" ==>
      if |t.content| == 0 then e == Ignore
      else e.Become? && e.next.content + [t.content[|t.content| - 1]] == t.content
    ensures e.Become? && e.next != Idle ==>
      e.next.typing == t.typing && e.next.position == t.position
  {
    if !Active(t) then Ignore
    else if key == "Enter" then Commit(t.content, t.position.value)
    else if key == "Escape" then Become(Idle)
    else if key == "Backspace" then
      if |t.content| > 0 then Become(t.(content := t.content[..|t.content| - 1])) else Ignore
    else if |key| == 1 then Become(t.(content := t.content + key))
    else Ignore
  }

  /** A printable key is appended to an active entry, and any other key that
      is not one of the three control keys is ignored. */
  lemma OtherKeys(t: TextState, key: string)
    requires Active(t) && key != "Enter" && key != "Escape" && key != "Backspace"
    ensures |key| == 1 ==> OnKey(t, key) == Become(t.(content := t.content + key))
    ensures |key| != 1 ==> OnKey(t, key) == Ignore
  {
  }

  /** Backspace takes back the character just typed. */
  lemma BackspaceAfterType(t: TextState, c: char)
    requires Active(t)
    ensures OnKey(t, [c]).Become?
    ensures OnKey(OnKey(t, [c]).next, "Backspace") == Become(t)
  {
    var u := t.(content := t.content + [c]);
    assert [c] != "Enter" && [c] != "Escape" && [c] != "Backspace";
    assert OnKey(t, [c]) == Become(u);
    assert u.content[..|u.content| - 1] == t.content;
  }
}
