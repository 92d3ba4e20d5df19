/** One to-do item's assistant panel: the tips or breakdown it shows, whether
    it is expanded, and the loading state of its two requests. Each request
    is split at its `await`: the click that starts it, and the reply that
    finishes it (the reply is an input). */
module TodoPanel {
  import opened Common
  import opened Json

  datatype RequestKind = TipsRequest | BreakdownRequest

  /** How `fetch` and `response.json()` ended: thrown, or the parsed body
      (whatever its status). */
  datatype Reply = Failed | Received(data: Json)

  /** `priority && !completed && description`. */
  predicate PriorityLineShown(priority: Option<string>, description: Option<string>, completed: bool)
  {
    priority.Some? && priority.value != "" && !completed && description.Some? && description.value != ""
  }

  /** The two assistant buttons are rendered only for an open item. */
  predicate ActionButtonsShown(completed: bool)
  {
    !completed
  }

  /** What the item renders. */
  datatype View = View(
    priorityLine: bool,
    actionButtons: bool,
    buttonsDisabled: bool,
    tipsSpinner: bool,
    breakdownSpinner: bool,
    deleteButton: bool,
    panel: bool,
    tipsSection: bool,
    breakdownSection: bool)

  class AiPanel {
    var isHovered: bool
    var isExpanded: bool
    /** `tips` and `subtasks` hold whatever the reply carried; `None` is
        null or undefined. */
    var tips: Option<Json>
    var subtasks: Option<Json>
    var isLoading: bool
    var loadingType: Option<RequestKind>

    /** Never both results at once, and a request kind exactly while loading. */
    ghost predicate Valid()
      reads this
    {
      (tips.None? || subtasks.None?) && (isLoading <==> loadingType.Some?)
    }

    constructor ()
      ensures Valid()
      ensures !isHovered && !isExpanded && tips.None? && subtasks.None?
      ensures !isLoading && loadingType.None?
    {
      isHovered, isExpanded := false, false;
      tips, subtasks := None, None;
      isLoading, loadingType := false, None;
    }

    /** `isExpanded && (tips || subtasks)`. */
    predicate PanelVisible()
      reads this
    {
      isExpanded && (Truthy(tips) || Truthy(subtasks))
    }

    /** Both buttons carry `disabled={isLoading}`. */
    predicate ButtonsDisabled()
      reads this
    {
      isLoading
    }

    /** A button shows its spinner while its own request is in flight. */
    predicate Spinning(kind: RequestKind)
      reads this
    {
      isLoading && loadingType == Some(kind)
    }

    predicate DeleteShown()
      reads this
    {
      isHovered
    }

    /** The item's markup: the priority line and the action buttons only for
        an open item, buttons disabled and one spinning while loading, the
        panel only when expanded with something to show, and never both of
        its sections at once. */
    function Render(completed: bool, priority: Option<string>, description: Option<string>): (v: View)
      reads this
      ensures v.priorityLine <==> (!completed && priority.Some? && priority.value != ""
                                   && description.Some? && description.value != "")
      ensures v.actionButtons <==> !completed
      ensures v.buttonsDisabled <==> isLoading
      ensures v.tipsSpinner <==> isLoading && loadingType == Some(TipsRequest)
      ensures v.breakdownSpinner <==> isLoading && loadingType == Some(BreakdownRequest)
      ensures Valid() ==> ((v.tipsSpinner || v.breakdownSpinner) <==> v.buttonsDisabled)
      ensures v.deleteButton <==> isHovered
      ensures v.panel <==> isExpanded && (Truthy(tips) || Truthy(subtasks))
      ensures v.tipsSection <==> isExpanded && Truthy(tips)
      ensures v.breakdownSection <==> isExpanded && Truthy(subtasks)
      ensures v.tipsSection || v.breakdownSection ==> v.panel
      ensures Valid() ==> !(v.tipsSection && v.breakdownSection)
    {
      // Either kind is in flight while loading: this case split proves the spinner clause.
      assert loadingType.Some? ==> loadingType.value.TipsRequest? || loadingType.value.BreakdownRequest?;
      View(
        PriorityLineShown(priority, description, completed),
        ActionButtonsShown(completed),
        ButtonsDisabled(),
        Spinning(TipsRequest),
        Spinning(BreakdownRequest),
        DeleteShown(),
        PanelVisible(),
        isExpanded && Truthy(tips),
        isExpanded && Truthy(subtasks))
    }

    /** A click on a button that is absent (completed item) or disabled
        (loading) does nothing; otherwise the request of that kind starts. */
    method Click(kind: RequestKind, completed: bool)
      requires Valid()
      modifies this
      ensures Valid()
      ensures !ActionButtonsShown(completed) || old(ButtonsDisabled()) ==> unchanged(this)
      ensures ActionButtonsShown(completed) && !old(ButtonsDisabled()) ==> Spinning(kind) && ButtonsDisabled()
      ensures tips == old(tips) && subtasks == old(subtasks)
      ensures isExpanded == old(isExpanded) && isHovered == old(isHovered)
    {
      if !ActionButtonsShown(completed) || isLoading {
        return;
      }
      isLoading := true;
      loadingType := Some(kind);
    }

    /** The end of `handleGetTips`: a parsed reply sets `tips` from it, clears
        `subtasks` and expands; a thrown request (or a `null` body, whose
        `tips` cannot be read) changes neither; loading always ends. */
    method FinishTips(reply: Reply)
      requires Valid() && Spinning(TipsRequest)
      modifies this
      ensures Valid()
      ensures !isLoading && loadingType.None?
      ensures reply.Received? && reply.data != JNull ==>
                tips == Member(reply.data, "tips") && subtasks.None? && isExpanded
      ensures !(reply.Received? && reply.data != JNull) ==>
                tips == old(tips) && subtasks == old(subtasks) && isExpanded == old(isExpanded)
      ensures isHovered == old(isHovered)
    {
      if reply.Received? && reply.data != JNull {
        tips := Member(reply.data, "tips");
        subtasks := None;
        isExpanded := true;
      }
      isLoading := false;
      loadingType := None;
    }

    /** The end of `handleBreakdown`, symmetric to `FinishTips`. */
    method FinishBreakdown(reply: Reply)
      requires Valid() && Spinning(BreakdownRequest)
      modifies this
      ensures Valid()
      ensures !isLoading && loadingType.None?
      ensures reply.Received? && reply.data != JNull ==>
                subtasks == Member(reply.data, "subtasks") && tips.None? && isExpanded
      ensures !(reply.Received? && reply.data != JNull) ==>
                tips == old(tips) && subtasks == old(subtasks) && isExpanded == old(isExpanded)
      ensures isHovered == old(isHovered)
    {
      if reply.Received? && reply.data != JNull {
        subtasks := Member(reply.data, "subtasks");
        tips := None;
        isExpanded := true;
      }
      isLoading := false;
      loadingType := None;
    }

    /** The Close button only collapses the panel, which hides it. */
    method Close()
      requires Valid()
      modifies this
      ensures Valid() && !isExpanded && !PanelVisible()
      ensures tips == old(tips) && subtasks == old(subtasks)
      ensures isLoading == old(isLoading) && loadingType == old(loadingType) && isHovered == old(isHovered)
    {
      isExpanded := false;
    }

    method SetHovered(hovered: bool)
      requires Valid()
      modifies this
      ensures Valid() && isHovered == hovered
      ensures tips == old(tips) && subtasks == old(subtasks) && isExpanded == old(isExpanded)
      ensures isLoading == old(isLoading) && loadingType == old(loadingType)
    {
      isHovered := hovered;
    }
  }

  /** A full tips round trip with the route's success body: the panel shows
      exactly the tips, with no breakdown, and is idle again. */
  method TipsRoundTrip(panel: AiPanel, text: string)
    requires panel.Valid() && !panel.isLoading && text != ""
    modifies panel
    ensures panel.Valid() && !panel.isLoading
    ensures panel.tips == Some(JStr(text)) && panel.subtasks.None? && panel.PanelVisible()
  {
    panel.Click(TipsRequest, false);
    panel.FinishTips(Received(JObj(map["tips" := JStr(text)])));
  }
}
