/**
 * The comment tooltip of `src/pages/FilesPage/FilesPage.tsx`: the active
 * anchor (`hoveredAnchorRef.current`), the tip (`tip`), and the four capture
 * handlers plus the click forwarder that maintain them. `normalize` stands for
 * the imported `normalizeNullableText`, whose body is not part of this model.
 */
module Tooltip {
  import opened Types
  import opened Dom

  /** `TipState`: always an object, with a possibly null comment. */
  datatype Tip = Tip(comment: Option<string>)

  /** The active anchor and the tip, which the handlers write together. */
  datatype HoverState = HoverState(anchor: Option<Node>, tip: Tip)

  const Cleared: HoverState := HoverState(None, Tip(None))

  /** No tip comment is kept without an active anchor. */
  predicate Consistent(s: HoverState) {
    s.anchor.None? ==> s.tip.comment.None?
  }

  /** The tip for anchor `a`: its normalised `data-comment`. */
  function TipFor(doc: Document, normalize: Option<string> -> Option<string>, a: Node): Tip {
    Tip(normalize(DataComment(doc, a)))
  }

  /** `clearTip`, applied only when an anchor is active (`if (hoveredAnchorRef.current) clearTip()`). */
  function ClearIfActive(s: HoverState): HoverState {
    if s.anchor.Some? then Cleared else s
  }

  /**
   * `handleMouseOverCapture`: `target` is the event target (an `Element` when
   * it is in `doc.elements`); `panel` is `commentRef.current`.
   */
  function OnMouseOver(doc: Document, normalize: Option<string> -> Option<string>, panel: Option<Node>,
                       s: HoverState, target: Node): HoverState
  {
    if target !in doc.elements then s
    else if panel.Some? && Contains(doc, panel.value, target) then s
    else
      match Closest(doc, target)
      case None => ClearIfActive(s)
      case Some(a) => if s.anchor == Some(a) then s else HoverState(Some(a), TipFor(doc, normalize, a))
  }

  /** `handleMouseLeave`. */
  function OnMouseLeave(s: HoverState): HoverState {
    ClearIfActive(s)
  }

  /** `handleFocusCapture`. */
  function OnFocus(doc: Document, normalize: Option<string> -> Option<string>, s: HoverState, target: Node): HoverState {
    if target !in doc.elements then s
    else
      match Closest(doc, target)
      case None => s
      case Some(a) => HoverState(Some(a), TipFor(doc, normalize, a))
  }

  /** `handleBlurCapture`: `box` is the `files__box` element, `related` the event's `relatedTarget`. */
  function OnBlur(doc: Document, box: Node, s: HoverState, related: Option<Node>): HoverState {
    if related.Some? && Contains(doc, box, related.value) then s else ClearIfActive(s)
  }

  /** `forwardCommentClickToAnchor`: the node that receives `click()`, if any. */
  function ForwardClick(s: HoverState): Option<Node> {
    s.anchor
  }

  /** An event inside the comment panel changes neither the anchor nor the tip. */
  lemma MouseOverInPanel(doc: Document, normalize: Option<string> -> Option<string>, panel: Option<Node>,
                         s: HoverState, target: Node)
    requires panel.Some? && Contains(doc, panel.value, target)
    ensures OnMouseOver(doc, normalize, panel, s, target) == s
  {
  }

  /** Moving over the active anchor again, or anything beneath it, changes nothing. */
  lemma MouseOverSameAnchor(doc: Document, normalize: Option<string> -> Option<string>, panel: Option<Node>,
                            s: HoverState, target: Node)
    requires s.anchor.Some? && Closest(doc, target) == s.anchor
    ensures OnMouseOver(doc, normalize, panel, s, target) == s
  {
  }

  /** Outside every anchor, mouse-over leaves nothing active and no comment (from a consistent state). */
  lemma MouseOverNoAnchor(doc: Document, normalize: Option<string> -> Option<string>, panel: Option<Node>,
                          s: HoverState, target: Node)
    requires Consistent(s)
    requires target in doc.elements && !(panel.Some? && Contains(doc, panel.value, target))
    requires forall a :: a in doc.anchors ==> !Contains(doc, a, target)
    ensures OnMouseOver(doc, normalize, panel, s, target) == Cleared
  {
  }

  /** Over a different anchor: that anchor becomes active with its normalised comment. */
  lemma MouseOverNewAnchor(doc: Document, normalize: Option<string> -> Option<string>, panel: Option<Node>,
                           s: HoverState, target: Node, a: Node)
    requires target in doc.elements && !(panel.Some? && Contains(doc, panel.value, target))
    requires a in doc.anchors && Contains(doc, a, target)
    requires forall b :: b in doc.anchors && Contains(doc, b, target) ==> Contains(doc, b, a)
    requires s.anchor != Some(a)
    ensures OnMouseOver(doc, normalize, panel, s, target) == HoverState(Some(a), Tip(normalize(DataComment(doc, a))))
  {
    var c := Closest(doc, target);
    assert c == Some(a) by {
      assert c.Some?;
      assert Contains(doc, c.value, a);
      ContainsOrder(doc, c.value, a);
      ContainsOrder(doc, a, c.value);
    }
  }

  /** Unlike mouse-over, focus outside every anchor keeps the state. */
  lemma FocusNoAnchor(doc: Document, normalize: Option<string> -> Option<string>, s: HoverState, target: Node)
    requires forall a :: a in doc.anchors ==> !Contains(doc, a, target)
    ensures OnFocus(doc, normalize, s, target) == s
  {
  }

  /** Focus on an anchor sets it and re-reads its comment even when it is already active. */
  lemma FocusAlwaysResets(doc: Document, normalize: Option<string> -> Option<string>, s: HoverState, target: Node)
    requires target in doc.elements && Closest(doc, target).Some?
    ensures var a := Closest(doc, target).value;
            OnFocus(doc, normalize, s, target) == HoverState(Some(a), TipFor(doc, normalize, a))
  {
  }

  /** Focus moving within the box keeps the state; leaving it (or to nowhere) clears it like mouse-leave. */
  lemma BlurRule(doc: Document, box: Node, s: HoverState, related: Option<Node>)
    requires Consistent(s)
    ensures related.Some? && Contains(doc, box, related.value) ==> OnBlur(doc, box, s, related) == s
    ensures !(related.Some? && Contains(doc, box, related.value)) ==> OnBlur(doc, box, s, related) == Cleared
    ensures OnMouseLeave(s) == Cleared
  {
  }

  /** One of the handled events. */
  datatype Event =
    | MouseOver(panel: Option<Node>, target: Node)
    | MouseLeave
    | Focus(target: Node)
    | Blur(box: Node, related: Option<Node>)

  function Step(doc: Document, normalize: Option<string> -> Option<string>, s: HoverState, e: Event): HoverState {
    match e
    case MouseOver(panel, target) => OnMouseOver(doc, normalize, panel, s, target)
    case MouseLeave => OnMouseLeave(s)
    case Focus(target) => OnFocus(doc, normalize, s, target)
    case Blur(box, related) => OnBlur(doc, box, s, related)
  }

  function StepAll(doc: Document, normalize: Option<string> -> Option<string>, s: HoverState, es: seq<Event>): HoverState
    decreases |es|
  {
    if es == [] then s else Step(doc, normalize, StepAll(doc, normalize, s, es[..|es| - 1]), es[|es| - 1])
  }

  /** Every handler keeps the invariant, and an active anchor is always an anchor of the document. */
  lemma StepKeepsConsistent(doc: Document, normalize: Option<string> -> Option<string>, s: HoverState, e: Event)
    requires Consistent(s)
    requires s.anchor.Some? ==> s.anchor.value in doc.anchors
    ensures Consistent(Step(doc, normalize, s, e))
    ensures var t := Step(doc, normalize, s, e); t.anchor.Some? ==> t.anchor.value in doc.anchors
  {
  }

  /** From the initial state, any sequence of events keeps both facts. */
  lemma {:induction false} ConsistentAfterAnyEvents(doc: Document, normalize: Option<string> -> Option<string>, es: seq<Event>)
    ensures var t := StepAll(doc, normalize, Cleared, es);
            Consistent(t) && (t.anchor.Some? ==> t.anchor.value in doc.anchors)
  {
    if es != [] {
      ConsistentAfterAnyEvents(doc, normalize, es[..|es| - 1]);
      StepKeepsConsistent(doc, normalize, StepAll(doc, normalize, Cleared, es[..|es| - 1]), es[|es| - 1]);
    }
  }

  /** An event together with the document as rendered when it fires. */
  datatype Rendered = Rendered(doc: Document, e: Event)

  /**
   * A run of events across re-renders: the page may rebuild its rows (a
   * refetch, a delete, an edited `data-comment`) between two events, while
   * the ref and the tip state carry over.
   */
  function StepRendered(normalize: Option<string> -> Option<string>, s: HoverState, rs: seq<Rendered>): HoverState
    decreases |rs|
  {
    if rs == [] then s
    else
      var r := rs[|rs| - 1];
      Step(r.doc, normalize, StepRendered(normalize, s, rs[..|rs| - 1]), r.e)
  }

  /** Whatever the documents, every handler keeps "no active anchor implies no comment". */
  lemma StepKeepsConsistentAnyDoc(doc: Document, normalize: Option<string> -> Option<string>, s: HoverState, e: Event)
    requires Consistent(s)
    ensures Consistent(Step(doc, normalize, s, e))
  {
  }

  /** Across any re-renders, from the initial state, a comment is kept only with an active anchor. */
  lemma {:induction false} ConsistentAcrossRenders(normalize: Option<string> -> Option<string>, rs: seq<Rendered>)
    ensures Consistent(StepRendered(normalize, Cleared, rs))
  {
    if rs != [] {
      ConsistentAcrossRenders(normalize, rs[..|rs| - 1]);
      var r := rs[|rs| - 1];
      StepKeepsConsistentAnyDoc(r.doc, normalize, StepRendered(normalize, Cleared, rs[..|rs| - 1]), r.e);
    }
  }

  /**
   * Hovering any node beneath anchor `a` (and outside the panel) and then
   * clicking the comment panel clicks `a`.
   */
  lemma HoverThenForward(doc: Document, normalize: Option<string> -> Option<string>, panel: Option<Node>,
                         s: HoverState, target: Node, a: Node)
    requires target in doc.elements && !(panel.Some? && Contains(doc, panel.value, target))
    requires Closest(doc, target) == Some(a)
    ensures ForwardClick(OnMouseOver(doc, normalize, panel, s, target)) == Some(a)
  {
  }

  /** Once an anchor is active, pointing anywhere between the first target and that anchor keeps the state. */
  lemma MoveWithinAnchor(doc: Document, normalize: Option<string> -> Option<string>, panel: Option<Node>,
                                            s: HoverState, t1: Node, t2: Node)
    requires t1 in doc.elements && t2 in doc.elements
    requires !(panel.Some? && Contains(doc, panel.value, t1)) && !(panel.Some? && Contains(doc, panel.value, t2))
    requires Closest(doc, t1).Some? && Contains(doc, t2, t1) && Contains(doc, Closest(doc, t1).value, t2)
    ensures var s1 := OnMouseOver(doc, normalize, panel, s, t1);
            s1.anchor == Closest(doc, t1) && OnMouseOver(doc, normalize, panel, s1, t2) == s1
  {
    ClosestFromBetween(doc, t2, t1);
  }

  /** `tipFallback`: the label meant for a missing tip, by list status. */
  function TipFallback(status: Status): string {
    if status == Loading then "Список загружается..."
    else if status == Failed then "Ошибка загрузки списка"
    else "Чтобы увидеть подсказку, наведите курсор на элемент списка"
  }

  const HoverHint: string := "Наведите на элемент списка для получения подсказки"

  /** The tip box's class list and label, for a tip that may be missing (`tip ? … : …`). */
  function TipClass(tip: Option<Tip>): string {
    "filesTip " + if tip.Some? then "" else "filesTip--empty"
  }

  function TipLabel(tip: Option<Tip>, status: Status): string {
    if tip.Some? then HoverHint else TipFallback(status)
  }

  /** The page always holds a tip object, so the empty class and the fallback label are never chosen. */
  lemma FallbackNeverShown(s: HoverState, status: Status)
    ensures TipLabel(Some(s.tip), status) == HoverHint
    ensures TipLabel(Some(s.tip), status) != TipFallback(status)
    ensures TipClass(Some(s.tip)) == "filesTip "
  {
  }

  /** The comment panel is rendered only for a non-empty comment (`tip?.comment && …`). */
  predicate PanelShown(tip: Tip) {
    tip.comment.Some? && tip.comment.value != ""
  }

  /** While an anchor is active, the tip holds that anchor's own comment. */
  predicate ShowsActiveComment(doc: Document, normalize: Option<string> -> Option<string>, s: HoverState) {
    s.anchor.Some? ==> s.tip == TipFor(doc, normalize, s.anchor.value)
  }

  /**
   * From the initial state, after any events, the tip belongs to the active
   * anchor, so the comment panel is rendered only while an anchor of the
   * document is active, and it shows that anchor's normalised `data-comment`.
   */
  lemma {:induction false} PanelShowsActiveComment(doc: Document, normalize: Option<string> -> Option<string>, es: seq<Event>)
    ensures var t := StepAll(doc, normalize, Cleared, es);
            && ShowsActiveComment(doc, normalize, t)
            && (PanelShown(t.tip) ==>
                  t.anchor.Some? && t.anchor.value in doc.anchors
                  && t.tip.comment == normalize(DataComment(doc, t.anchor.value)))
  {
    ConsistentAfterAnyEvents(doc, normalize, es);
    if es != [] {
      PanelShowsActiveComment(doc, normalize, es[..|es| - 1]);
    }
  }

  /** The controller: the ref, the tip state and the `click()` calls made on anchors. */
  class TipController {
    var hoveredAnchor: Option<Node>
    var tip: Tip
    var clicks: seq<Node>
    const normalize: Option<string> -> Option<string>

    function State(): HoverState
      reads this
    {
      HoverState(hoveredAnchor, tip)
    }

    constructor (normalize: Option<string> -> Option<string>)
      ensures State() == Cleared && clicks == [] && this.normalize == normalize
    {
      hoveredAnchor := None;
      tip := Tip(None);
      clicks := [];
      this.normalize := normalize;
    }

    /** `clearTip`. */
    method ClearTip()
      modifies this`hoveredAnchor, this`tip
      ensures State() == Cleared
    {
      hoveredAnchor := None;
      tip := Tip(None);
    }

    method MouseOverCapture(doc: Document, panel: Option<Node>, target: Node)
      modifies this`hoveredAnchor, this`tip
      ensures State() == OnMouseOver(doc, normalize, panel, old(State()), target)
    {
      if target !in doc.elements {
        return;
      }
      if panel.Some? && Contains(doc, panel.value, target) {
        return;
      }
      var anchor := Closest(doc, target);
      if anchor.None? {
        if hoveredAnchor.Some? {
          ClearTip();
        }
        return;
      }
      if hoveredAnchor == anchor {
        return;
      }
      hoveredAnchor := anchor;
      var comment := normalize(DataComment(doc, anchor.value));
      tip := Tip(comment);
    }

    method MouseLeave()
      modifies this`hoveredAnchor, this`tip
      ensures State() == OnMouseLeave(old(State()))
    {
      if hoveredAnchor.Some? {
        ClearTip();
      }
    }

    method FocusCapture(doc: Document, target: Node)
      modifies this`hoveredAnchor, this`tip
      ensures State() == OnFocus(doc, normalize, old(State()), target)
    {
      if target !in doc.elements {
        return;
      }
      var anchor := Closest(doc, target);
      if anchor.None? {
        return;
      }
      hoveredAnchor := anchor;
      var comment := normalize(DataComment(doc, anchor.value));
      tip := Tip(comment);
    }

    method BlurCapture(doc: Document, box: Node, related: Option<Node>)
      modifies this`hoveredAnchor, this`tip
      ensures State() == OnBlur(doc, box, old(State()), related)
    {
      if related.Some? && Contains(doc, box, related.value) {
        return;
      }
      if hoveredAnchor.Some? {
        ClearTip();
      }
    }

    /** Exactly one `click()` on the active anchor, or none; the hover state is untouched. */
    method ForwardCommentClick()
      modifies this`clicks
      ensures clicks == old(clicks) + if hoveredAnchor.Some? then [hoveredAnchor.value] else []
    {
      var anchor := hoveredAnchor;
      if anchor.None? {
        return;
      }
      clicks := clicks + [anchor.value];
    }
  }
}
