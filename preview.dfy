/** The chat preview of src/components/ChatPreview.jsx: one bubble per
    message, each marked as the first and/or last of its run of messages
    from the same side, the draft appended as a bubble of its own, the
    watermark for users who are not pro, and the container background per
    theme. */
module Preview {
  import opened Common
  import opened Editor

  datatype Bubble = Bubble(message: Message, isFirst: bool, isLast: bool)

  /** A run of same-side messages starts at `i`. */
  predicate StartsRun(msgs: seq<Message>, i: int)
    requires 0 <= i < |msgs|
  {
    i == 0 || msgs[i - 1].isSender != msgs[i].isSender
  }

  /** A run of same-side messages ends at `i`. */
  predicate EndsRun(msgs: seq<Message>, i: int)
    requires 0 <= i < |msgs|
  {
    i == |msgs| - 1 || msgs[i + 1].isSender != msgs[i].isSender
  }

  /** `messages.map((msg, index) => ...)` with its neighbour lookups. */
  function Bubbles(msgs: seq<Message>): (r: seq<Bubble>)
    ensures |r| == |msgs|
    ensures forall i :: 0 <= i < |r| ==> r[i].message == msgs[i]
    ensures forall i :: 0 <= i < |r| ==> (r[i].isFirst <==> StartsRun(msgs, i)) && (r[i].isLast <==> EndsRun(msgs, i))
  {
    seq(|msgs|, i requires 0 <= i < |msgs| => Bubble(msgs[i], StartsRun(msgs, i), EndsRun(msgs, i)))
  }

  /** The bubbles of the messages, then the draft, if any, as a bubble that
      is both first and last. */
  function PreviewBubbles(msgs: seq<Message>, draft: Option<Message>): (r: seq<Bubble>)
    ensures |r| == |msgs| + (if draft.Some? then 1 else 0)
    ensures r[..|msgs|] == Bubbles(msgs)
    ensures draft.Some? ==> r[|msgs|] == Bubble(draft.value, true, true)
  {
    Bubbles(msgs) + (if draft.Some? then [Bubble(draft.value, true, true)] else [])
  }

  /** Number of sender changes between neighbours among the first `k`
      messages. */
  function ChangesBefore(msgs: seq<Message>, k: nat): nat
    requires k <= |msgs|
  {
    if k <= 1 then 0
    else ChangesBefore(msgs, k - 1) + (if msgs[k - 2].isSender != msgs[k - 1].isSender then 1 else 0)
  }

  /** The number of maximal runs of same-side messages. */
  function Runs(msgs: seq<Message>): nat
  {
    if msgs == [] then 0 else 1 + ChangesBefore(msgs, |msgs|)
  }

  function FirstsBefore(b: seq<Bubble>, k: nat): nat
    requires k <= |b|
  {
    if k == 0 then 0 else FirstsBefore(b, k - 1) + (if b[k - 1].isFirst then 1 else 0)
  }

  function LastsBefore(b: seq<Bubble>, k: nat): nat
    requires k <= |b|
  {
    if k == 0 then 0 else LastsBefore(b, k - 1) + (if b[k - 1].isLast then 1 else 0)
  }

  lemma {:induction false} FirstsAreRunStarts(msgs: seq<Message>, k: nat)
    requires 1 <= k <= |msgs|
    ensures FirstsBefore(Bubbles(msgs), k) == 1 + ChangesBefore(msgs, k)
  {
    if k > 1 {
      FirstsAreRunStarts(msgs, k - 1);
    }
  }

  /** Counting the last-of-run marks of any bubble sequence whose marks
      agree with `EndsRun`. */
  lemma {:induction false} LastsCountChanges(msgs: seq<Message>, b: seq<Bubble>, k: nat)
    requires |b| == |msgs| && k < |msgs|
    requires forall i :: 0 <= i < |b| ==> (b[i].isLast <==> EndsRun(msgs, i))
    ensures LastsBefore(b, k) == ChangesBefore(msgs, k + 1)
  {
    if k > 0 {
      LastsCountChanges(msgs, b, k - 1);
      assert b[k - 1].isLast <==> EndsRun(msgs, k - 1);
    }
  }

  /** Every maximal run of same-side messages gets exactly one first bubble
      and exactly one last bubble. */
  lemma {:induction false} RunsHaveOneFirstAndOneLast(msgs: seq<Message>)
    ensures FirstsBefore(Bubbles(msgs), |msgs|) == Runs(msgs)
    ensures LastsBefore(Bubbles(msgs), |msgs|) == Runs(msgs)
  {
    var b := Bubbles(msgs);
    var n := |msgs|;
    if n > 0 {
      FirstsAreRunStarts(msgs, n);
      LastsCountChanges(msgs, b, n - 1);
      assert EndsRun(msgs, n - 1);
      assert LastsBefore(b, n) == LastsBefore(b, n - 1) + 1;
    }
  }

  /** A bubble ends its run exactly when the next one starts a run. */
  lemma LastThenFirst(msgs: seq<Message>, i: nat)
    requires i + 1 < |msgs|
    ensures Bubbles(msgs)[i].isLast <==> Bubbles(msgs)[i + 1].isFirst
  {
  }

  /** `!isPro`, where a missing subscription context reads as not pro. */
  function ShowsWatermark(contextIsPro: Option<bool>): (shown: bool)
    ensures shown <==> contextIsPro != Some(true)
  {
    var isPro := if contextIsPro.Some? then contextIsPro.value else false;
    !isPro
  }

  datatype ContainerStyle = ContainerStyle(background: string, backgroundImage: Option<string>, coverCentered: bool)

  /** `getContainerStyle`: a background per known theme and dark mode, a
      custom background image for WhatsApp, and '#fff' for any other theme. */
  function ContainerStyleFor(theme: string, dark: bool, backgroundImage: string): (st: ContainerStyle)
    ensures theme != "whatsapp" && theme != "imessage" && theme != "telegram" ==> st == ContainerStyle("#fff", None, false)
    ensures st.backgroundImage.Some? <==> theme == "whatsapp"
    ensures theme == "whatsapp" && backgroundImage != "" ==> st.backgroundImage == Some("url(" + backgroundImage + ")")
  {
    if theme == "whatsapp" then
      ContainerStyle(if dark then "#0b141a" else "#efe7dd",
                     Some(if backgroundImage != "" then "url(" + backgroundImage + ")" else if dark then "none" else ""),
                     true)
    else if theme == "imessage" then ContainerStyle(if dark then "#000000" else "#ffffff", None, false)
    else if theme == "telegram" then ContainerStyle(if dark then "#0e1621" else "#8ba2b8", None, false)
    else ContainerStyle("#fff", None, false)
  }
}
