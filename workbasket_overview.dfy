/**
 * The workbasket overview (`WorkbasketOverviewComponent`): whether the detail
 * pane shows, the store actions the route implies, and the list's width toggle.
 *
 * Each subscription of `ngOnInit` is a method that handles one emission of its
 * stream; store actions are appended to `dispatched`. The list element's
 * rendered width is the integer `listWidth`, which the toggle writes and reads.
 */
module WorkbasketOverview {
  import opened Wrappers

  const NewWorkbasketRoute := "new-workbasket"
  const WorkbasketsSegment := "workbaskets"
  /** The value of `action` under which the detail pane shows without a selection. */
  const DetailActionCode := 1

  const CollapsedWidth := 250
  const ExpandedWidth := 500

  datatype Action = SelectWorkbasket(id: string) | CreateWorkbasket

  /** The store's selected workbasket, as far as this component reads it. */
  datatype WorkbasketRef = WorkbasketRef(workbasketId: Option<string>)

  /** The child route's parameters. */
  datatype RouteParams = RouteParams(id: Option<string>)

  /** The widths the toggle writes. */
  datatype Layout = Layout(expanded: bool, width: int, minWidth: int, buttonLeft: int)

  /** A string is truthy when it is present and not empty. */
  predicate Truthy(s: Option<string>) {
    s.Some? && s.value != ""
  }

  /** The action a child-route id leads to, if any. */
  function RouteAction(id: Option<string>): (a: Option<Action>)
    ensures a.Some? <==> Truthy(id)
    ensures a == Some(CreateWorkbasket) <==> id == Some(NewWorkbasketRoute)
    ensures a.Some? && a.value.SelectWorkbasket? ==>
              id == Some(a.value.id) && a.value.id != NewWorkbasketRoute
  {
    if !Truthy(id) then None
    else if id.value == NewWorkbasketRoute then Some(CreateWorkbasket)
    else Some(SelectWorkbasket(id.value))
  }

  /** What the toggle does given the list's rendered width. */
  function Toggled(width: int): (l: Layout)
    ensures l.width == CollapsedWidth || l.width == ExpandedWidth
    ensures l.expanded <==> width == CollapsedWidth
    ensures l.expanded <==> l.width == ExpandedWidth
    ensures l.minWidth == l.width && l.buttonLeft == l.width - 20
  {
    if width == CollapsedWidth then Layout(true, ExpandedWidth, ExpandedWidth, 480)
    else Layout(false, CollapsedWidth, CollapsedWidth, 230)
  }

  /** Once the width is one the toggle writes, toggling twice restores the layout. */
  lemma ToggleTwiceRestores(width: int)
    ensures Toggled(Toggled(Toggled(width).width).width) == Toggled(width)
  {
  }

  class WorkbasketOverviewComponent {
    var showDetail: bool
    var routerParams: Option<RouteParams>
    var expanded: bool
    var listWidth: int
    var listMinWidth: int
    var buttonLeft: int
    var destroyed: bool
    var dispatched: seq<Action>

    /** The initial widths come from the style sheet, which is not part of this model. */
    constructor (listWidth: int, listMinWidth: int, buttonLeft: int)
      ensures !showDetail && routerParams == None && expanded && !destroyed
      ensures this.listWidth == listWidth && this.listMinWidth == listMinWidth
      ensures this.buttonLeft == buttonLeft && dispatched == []
    {
      showDetail := false;
      routerParams := None;
      expanded := true;
      this.listWidth := listWidth;
      this.listMinWidth := listMinWidth;
      this.buttonLeft := buttonLeft;
      destroyed := false;
      dispatched := [];
    }

    /**
     * An emission of the route's url: on the workbaskets page, the stored
     * selected workbasket (read once) is selected again if it has an id.
     */
    method OnUrl(firstSegment: string, selected: WorkbasketRef)
      modifies this`dispatched
      ensures !destroyed && firstSegment == WorkbasketsSegment && selected.workbasketId.Some? ==>
                dispatched == old(dispatched) + [SelectWorkbasket(selected.workbasketId.value)]
      ensures !(!destroyed && firstSegment == WorkbasketsSegment && selected.workbasketId.Some?) ==>
                dispatched == old(dispatched)
    {
      if !destroyed && firstSegment == WorkbasketsSegment && selected.workbasketId.Some? {
        dispatched := dispatched + [SelectWorkbasket(selected.workbasketId.value)];
      }
    }

    /**
     * An emission of the child route's parameters: they are recorded; a truthy
     * id shows the detail pane and creates or selects a workbasket.
     */
    method OnChildParams(params: RouteParams)
      modifies this`routerParams, this`showDetail, this`dispatched
      ensures destroyed ==> routerParams == old(routerParams) && showDetail == old(showDetail) &&
                            dispatched == old(dispatched)
      ensures !destroyed ==> routerParams == Some(params)
      ensures !destroyed && Truthy(params.id) ==>
                showDetail && dispatched == old(dispatched) + [RouteAction(params.id).value]
      ensures !destroyed && !Truthy(params.id) ==>
                showDetail == old(showDetail) && dispatched == old(dispatched)
    {
      if !destroyed {
        routerParams := Some(params);
        if Truthy(params.id) {
          showDetail := true;
          if params.id.value == NewWorkbasketRoute {
            dispatched := dispatched + [CreateWorkbasket];
          } else {
            dispatched := dispatched + [SelectWorkbasket(params.id.value)];
          }
        }
      }
    }

    /** An emission of the selected workbasket and the pending action. */
    method OnSelectionState(selected: Option<WorkbasketRef>, action: int)
      modifies this`showDetail
      ensures !destroyed ==> showDetail == (selected.Some? || action == DetailActionCode)
      ensures destroyed ==> showDetail == old(showDetail)
    {
      if !destroyed {
        showDetail := selected.Some? || action == DetailActionCode;
      }
    }

    method ToggleWidth()
      modifies this`expanded, this`listWidth, this`listMinWidth, this`buttonLeft
      ensures Layout(expanded, listWidth, listMinWidth, buttonLeft) == Toggled(old(listWidth))
    {
      if listWidth == CollapsedWidth {
        expanded := true;
        listWidth := ExpandedWidth;
        listMinWidth := ExpandedWidth;
        buttonLeft := 480;
      } else {
        expanded := false;
        listWidth := CollapsedWidth;
        listMinWidth := CollapsedWidth;
        buttonLeft := 230;
      }
    }

    /** `ngOnDestroy`: the url, route and state subscriptions end. */
    method Destroy()
      modifies this`destroyed
      ensures destroyed
    {
      destroyed := true;
    }
  }
}
