/** The onboarding flow of the mobile app
    (apps/daimo-mobile/src/view/screen/onboarding/OnboardingScreen.tsx): a
    fixed set of pages, the transition each page's "next" button performs,
    the back-stack behind the "previous" button, the restart after a failed
    account creation, and the invite-code check. Rendering, the account
    creation hook and the platform query are outside the model; the platform
    is a parameter. */
module Onboarding {
  import opened Errors

  datatype Page =
    | Intro
    | FlowSelection
    | CreateInvite
    | CreateTryEnclave
    | ExistingTryEnclave
    | Create
    | Existing
    | NewAllowNotifications
    | ExistingAllowNotifications
    | NewLoading

  datatype DaimoChain = Base | BaseGoerli

  datatype Choice = CreateAccount | UseExisting

  /** The optional argument of a page's `next` callback; every field may be
      missing. */
  datatype NextInput = NextInput(choice: Option<Choice>, isTestnet: Option<bool>)

  /** What a page's `next` callback does when called: switch to a page
      (and, from the invite page, pick the chain first), or finish
      onboarding. */
  datatype Step = GoTo(chain: Option<DaimoChain>, target: Page) | Complete

  /** `getNext`, applied to the callback's argument. */
  function Next(page: Page, isAndroid: bool, input: Option<NextInput>): (r: Result<Step>)
    ensures r.Err? <==> || ((page == FlowSelection || page == CreateInvite) && input.None?)
                        || (page == CreateInvite && input.Some? && input.value.isTestnet.None?)
    ensures r.Err? ==> r.msg == AssertionFailed
    ensures r.Ok? ==> (r.value.Complete? <==> page == ExistingAllowNotifications || page == NewLoading)
    ensures r.Ok? && r.value.GoTo? ==> (r.value.chain.Some? <==> page == CreateInvite)
    ensures r.Ok? && page == CreateInvite ==>
              r.value.chain == Some(if input.value.isTestnet.value then BaseGoerli else Base)
  {
    match page
    case Intro => Ok(GoTo(None, FlowSelection))
    case FlowSelection =>
      (match AssertNotNull(input, None)
       case Err(m) => Err(m)
       case Ok(i) =>
         if i.choice == Some(CreateAccount) then Ok(GoTo(None, CreateInvite))
         else if !isAndroid then Ok(GoTo(None, Existing))
         else Ok(GoTo(None, ExistingTryEnclave)))
    case CreateInvite =>
      (match AssertNotNull(input, None)
       case Err(m) => Err(m)
       case Ok(i) =>
         match AssertNotNull(i.isTestnet, None)
         case Err(m) => Err(m)
         case Ok(isTestnet) =>
           var chain := if isTestnet then BaseGoerli else Base;
           Ok(GoTo(Some(chain), if !isAndroid then Create else CreateTryEnclave)))
    case CreateTryEnclave => Ok(GoTo(None, Create))
    case ExistingTryEnclave => Ok(GoTo(None, Existing))
    case Create => Ok(GoTo(None, NewAllowNotifications))
    case Existing => Ok(GoTo(None, ExistingAllowNotifications))
    case NewAllowNotifications => Ok(GoTo(None, NewLoading))
    case ExistingAllowNotifications => Ok(Complete)
    case NewLoading => Ok(Complete)
  }

  /** How far into onboarding a page is. */
  function Depth(page: Page): (d: nat)
    ensures d <= 6
  {
    match page
    case Intro => 0
    case FlowSelection => 1
    case CreateInvite => 2
    case CreateTryEnclave => 3
    case ExistingTryEnclave => 3
    case Create => 4
    case Existing => 4
    case NewAllowNotifications => 5
    case ExistingAllowNotifications => 5
    case NewLoading => 6
  }

  /** Every "next" moves strictly deeper, so following "next" never revisits
      a page and reaches completion after at most seven steps. */
  lemma NextMovesForward(page: Page, isAndroid: bool, input: Option<NextInput>)
    requires Next(page, isAndroid, input).Ok? && Next(page, isAndroid, input).value.GoTo?
    ensures Depth(Next(page, isAndroid, input).value.target) > Depth(page)
  {
  }

  /** The enclave set-up pages are only ever entered on Android, and on
      Android neither the create nor the existing page is entered straight
      from the selection or invite pages. */
  lemma EnclavePagesOnlyOnAndroid(page: Page, isAndroid: bool, input: Option<NextInput>)
    requires Next(page, isAndroid, input).Ok? && Next(page, isAndroid, input).value.GoTo?
    ensures Next(page, isAndroid, input).value.target in {CreateTryEnclave, ExistingTryEnclave} ==> isAndroid
    ensures isAndroid && page in {FlowSelection, CreateInvite} ==>
              Next(page, isAndroid, input).value.target !in {Create, Existing}
  {
  }

  /** From the selection page, only an explicit "create" leads to the invite
      page; any other choice, including none, leads to an existing account. */
  lemma SelectionRoutes(isAndroid: bool, input: NextInput)
    ensures var t := Next(FlowSelection, isAndroid, Some(input)).value.target;
      && (t == CreateInvite <==> input.choice == Some(CreateAccount))
      && (t != CreateInvite ==> t == if isAndroid then ExistingTryEnclave else Existing)
  {
  }

  /** The pages visited by following "next" from `page` with the given
      arguments, until onboarding completes, a callback throws or the
      arguments run out. */
  function Walk(page: Page, isAndroid: bool, inputs: seq<Option<NextInput>>): (r: Result<seq<Page>>)
    ensures r.Ok? ==> 1 <= |r.value| <= |inputs| + 1 && r.value[0] == page
    ensures r.Ok? ==> forall i, j :: 0 <= i < j < |r.value| ==> Depth(r.value[i]) < Depth(r.value[j])
    decreases |inputs|
  {
    if inputs == [] then Ok([page])
    else
      match Next(page, isAndroid, inputs[0])
      case Err(m) => Err(m)
      case Ok(Complete) => Ok([page])
      case Ok(GoTo(_, target)) =>
        NextMovesForward(page, isAndroid, inputs[0]);
        match Walk(target, isAndroid, inputs[1..])
        case Err(m) => Err(m)
        case Ok(rest) =>
          assert forall j :: 0 <= j < |rest| ==> Depth(page) < Depth(rest[j]) by {
            assert forall j :: 0 < j < |rest| ==> Depth(rest[0]) < Depth(rest[j]);
          }
          Ok([page] + rest)
  }

  // ---------------------------------------------------------------------
  // The invite page

  /** The state of the server's invite-code query. */
  datatype Query = Idle | Loading | Succeeded(data: bool) | Failed

  datatype InviteStatus = Blank | Checking | ValidInvite | InvalidInvite | Offline

  /** `isValid`: the test-network code, or a code the server confirmed. */
  predicate IsValidInvite(inviteCode: string, query: Query)
    ensures inviteCode == "testnet" ==> IsValidInvite(inviteCode, query)
    ensures query != Succeeded(true) ==> (IsValidInvite(inviteCode, query) <==> inviteCode == "testnet")
  {
    inviteCode == "testnet" || query == Succeeded(true)
  }

  /** The status line under the invite field; a query in no known state
      throws. */
  function InviteStatusLine(inviteCode: string, query: Query): (r: Result<InviteStatus>)
    ensures r.Err? <==> inviteCode != "" && query == Idle && !IsValidInvite(inviteCode, query)
    ensures r == Ok(ValidInvite) <==> inviteCode != "" && query != Loading && IsValidInvite(inviteCode, query)
    ensures r == Ok(InvalidInvite) ==> !IsValidInvite(inviteCode, query)
  {
    if inviteCode == "" then Ok(Blank)
    else if query.Loading? then Ok(Checking)
    else if IsValidInvite(inviteCode, query) then Ok(ValidInvite)
    else if query.Succeeded? && !query.data then Ok(InvalidInvite)
    else if query.Failed? then Ok(Offline)
    else Err("unreachable")
  }

  /** The submit button: disabled (`None`) unless the invite is valid;
      otherwise it calls `next` with whether the code is the test code. */
  function Submit(inviteCode: string, query: Query): (r: Option<Option<NextInput>>)
    ensures r.Some? <==> IsValidInvite(inviteCode, query)
  {
    if IsValidInvite(inviteCode, query) then Some(Some(NextInput(None, Some(inviteCode == "testnet")))) else None
  }

  /** Submitting a valid invite never throws: it picks the test network
      exactly for the code "testnet", and moves on to account creation. */
  lemma SubmitPicksChain(inviteCode: string, query: Query, isAndroid: bool)
    requires IsValidInvite(inviteCode, query)
    ensures var r := Next(CreateInvite, isAndroid, Submit(inviteCode, query).value);
      && r.Ok? && r.value.GoTo?
      && r.value.chain == Some(if inviteCode == "testnet" then BaseGoerli else Base)
      && r.value.target in {Create, CreateTryEnclave}
  {
  }

  // ---------------------------------------------------------------------
  // Navigation state

  /** The current page and the back-stack, most recent page last. */
  datatype Nav = Nav(page: Page, stack: seq<Page>)

  /** `goTo`: push the current page, then switch. */
  function Pushed(n: Nav, target: Page): (r: Nav)
    ensures r.page == target && |r.stack| == |n.stack| + 1
  {
    Nav(target, n.stack + [n.page])
  }

  /** `goToPrev` on a non-empty stack: pop the most recent page and show it. */
  function Popped(n: Nav): (r: Nav)
    requires n.stack != []
    ensures |r.stack| == |n.stack| - 1
  {
    Nav(n.stack[|n.stack| - 1], n.stack[..|n.stack| - 1])
  }

  /** "Previous" undoes "go to". */
  lemma PopUndoesPush(n: Nav, target: Page)
    ensures Popped(Pushed(n, target)) == n
  {
    assert (n.stack + [n.page])[..|n.stack|] == n.stack;
  }

  /** After `reset`, the stack holds exactly the page it was called from, so
      "previous" leads back there and then is unavailable. */
  lemma ResetThenBack(n: Nav)
    ensures Pushed(Nav(n.page, []), FlowSelection).stack == [n.page]
    ensures Popped(Pushed(Nav(n.page, []), FlowSelection)) == Nav(n.page, [])
  {
    PopUndoesPush(Nav(n.page, []), FlowSelection);
  }

  /** The screen's state. `completed` records that `onOnboardingComplete`
      was called. */
  class OnboardingScreen {
    var page: Page
    var pageStack: seq<Page>
    var daimoChain: DaimoChain
    var name: string
    var inviteCode: string
    var completed: bool

    function Navigation(): Nav
      reads this
    {
      Nav(page, pageStack)
    }

    constructor()
      ensures Navigation() == Nav(Intro, []) && daimoChain == Base
      ensures name == "" && inviteCode == "" && !completed
    {
      page := Intro;
      pageStack := [];
      daimoChain := Base;
      name := "";
      inviteCode := "";
      completed := false;
    }

    /** `prev` is offered iff the stack is non-empty. */
    predicate HasPrev()
      reads this
    {
      |pageStack| > 0
    }

    method GoTo(newPage: Page)
      modifies this`page, this`pageStack
      ensures Navigation() == Pushed(old(Navigation()), newPage)
    {
      pageStack := pageStack + [page];
      page := newPage;
    }

    method GoToPrev() returns (moved: bool)
      modifies this`page, this`pageStack
      ensures moved <==> old(HasPrev())
      ensures moved ==> Navigation() == Popped(old(Navigation()))
      ensures !moved ==> Navigation() == old(Navigation())
    {
      if |pageStack| > 0 {
        page := pageStack[|pageStack| - 1];
        pageStack := pageStack[..|pageStack| - 1];
        moved := true;
      } else {
        moved := false;
      }
    }

    /** `reset`: empty the stack, go to the flow selection and clear the
        form. */
    method Reset()
      modifies this`page, this`pageStack, this`name, this`inviteCode
      ensures Navigation() == Pushed(Nav(old(page), []), FlowSelection)
      ensures name == "" && inviteCode == ""
    {
      pageStack := [];
      GoTo(FlowSelection);
      name := "";
      inviteCode := "";
    }

    /** Calling the current page's `next` callback. */
    method OnNext(isAndroid: bool, input: Option<NextInput>) returns (r: Result<()>)
      modifies this`page, this`pageStack, this`daimoChain, this`completed
      ensures var step := Next(old(page), isAndroid, input);
        && (r.Err? <==> step.Err?)
        && (step.Err? ==>
              r.msg == step.msg && Navigation() == old(Navigation())
              && daimoChain == old(daimoChain) && completed == old(completed))
        && (step.Ok? && step.value.Complete? ==>
              Navigation() == old(Navigation()) && daimoChain == old(daimoChain) && completed)
        && (step.Ok? && step.value.GoTo? ==>
              Navigation() == Pushed(old(Navigation()), step.value.target)
              && daimoChain == step.value.chain.GetOr(old(daimoChain)) && completed == old(completed))
    {
      var step := Next(page, isAndroid, input);
      if step.Err? {
        return Err(step.msg);
      }
      r := Ok(());
      match step.value
      case Complete =>
        completed := true;
      case GoTo(chain, target) =>
        if chain.Some? {
          daimoChain := chain.value;
        }
        GoTo(target);
    }
  }
}
