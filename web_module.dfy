/** WebModule's hooks: the installer's response hook (a small state machine over
    the process-wide install configuration) and the lists the module contributes
    to the installer. The hook registry itself is not modelled: the combined
    results of `invokeAllAsync(.install)` and `invokeAllFlatAsync(.installWebPages)`
    and the next install step are inputs. */
module WebModule {
  import opened Common

  // ---------------------------------------------------------------------------
  // Contributed lists

  /** An install step: its key and the priority that orders it. */
  datatype InstallStep = InstallStep(key: string, priority: int)

  /** Keys of the engine's first and last install steps. */
  const StartStep: string := "start"
  const FinishStep: string := "finish"
  /** The key of the step WebModule adds in between. */
  const CustomStep: string := "custom"

  /** `installStepHook`: WebModule adds the single step `custom` with priority 2. */
  function InstallStepHook(): (steps: seq<InstallStep>)
    ensures |steps| == 1 && steps[0].key == CustomStep && steps[0].priority == 2
  {
    [InstallStep(CustomStep, 2)]
  }

  /** `WebPage.Create`: a page to be created by the installer. */
  datatype WebPageCreate = WebPageCreate(title: string, content: string)

  /** `installWebPagesHook`: WebModule asks for one page, "Lorem" / "ipsum". */
  function InstallWebPagesHook(): (pages: seq<WebPageCreate>)
    ensures |pages| == 1 && pages[0].title == "Lorem" && pages[0].content == "ipsum"
  {
    [WebPageCreate("Lorem", "ipsum")]
  }

  /** `CommonVariable.Create`. */
  datatype CommonVariableCreate = CommonVariableCreate(key: string, name: string, value: string, notes: string)

  /** `installCommonVariablesHook`: the five welcome-page variables. */
  function InstallCommonVariablesHook(): (vars: seq<CommonVariableCreate>)
    ensures |vars| == 5
    ensures forall i, j :: 0 <= i < j < |vars| ==> vars[i].key != vars[j].key
    ensures forall i :: 0 <= i < |vars| ==> |vars[i].key| > 11 && vars[i].key[..11] == "welcomePage"
  {
    [
      CommonVariableCreate("welcomePageIcon", "Welcome page icon", "\U{1FAB6}", "Icon of the welcome page"),
      CommonVariableCreate("welcomePageTitle", "Welcome page title", "Welcome", "Title of the welcome page"),
      CommonVariableCreate("welcomePageExcerpt", "Welcome page excerpt",
        "This is your brand new Feather CMS powered website", "Excerpt for the welcome page"),
      CommonVariableCreate("welcomePageLinkLabel", "Welcome page link label",
        "Start customizing →", "Link label of the welcome page"),
      CommonVariableCreate("welcomePageLinkUrl", "Welcome page link url", "/admin/", "Link URL of the welcome page")
    ]
  }

  /** `LinkContext`: a menu link with its ordering priority. */
  datatype MenuLink = MenuLink(text: string, url: string, priority: int)

  /** `webMenusHook`: the single "Home" link to the site root. */
  function WebMenusHook(): (links: seq<MenuLink>)
    ensures |links| == 1 && links[0] == MenuLink("Home", "/", 100)
  {
    [MenuLink("Home", "/", 100)]
  }

  /** `installUserPermissionsHook`: WebModule's own permissions followed by those of
      its page, menu, menu item and metadata models, in that order. The five lists
      themselves come from `installPermissions()`, which is not part of this model. */
  method InstallUserPermissionsHook<P>(web: seq<P>, pages: seq<P>, menus: seq<P>, menuItems: seq<P>, metadata: seq<P>)
    returns (permissions: seq<P>)
    ensures permissions == web + pages + menus + menuItems + metadata
    ensures |permissions| == |web| + |pages| + |menus| + |menuItems| + |metadata|
  {
    permissions := web;
    permissions := permissions + pages;
    permissions := permissions + menus;
    permissions := permissions + menuItems;
    permissions := permissions + metadata;
  }

  // ---------------------------------------------------------------------------
  // The install hook

  /** A stored `WebPageModel`. */
  datatype WebPage = WebPage(title: string, content: string)

  /** The pages table. */
  class PageStore {
    var pages: seq<WebPage>

    constructor ()
      ensures pages == []
    {
      pages := [];
    }
  }

  /** The models `installHook` builds from the page requests, one per request, in order. */
  function PagesFrom(requests: seq<WebPageCreate>): (pages: seq<WebPage>)
    ensures |pages| == |requests|
    ensures forall i :: 0 <= i < |requests| ==>
      pages[i].title == requests[i].title && pages[i].content == requests[i].content
  {
    seq(|requests|, i requires 0 <= i < |requests| => WebPage(requests[i].title, requests[i].content))
  }

  /** `installHook`: collect every module's page requests (the combined result of
      `invokeAllFlatAsync(.installWebPages)`), then store one page per request. A
      failure while collecting is rethrown with the table untouched. */
  method InstallHook(requested: Result<seq<WebPageCreate>>, db: PageStore) returns (r: Outcome)
    modifies db
    ensures requested.Err? ==> r == Fail(requested.failure) && db.pages == old(db.pages)
    ensures requested.Ok? ==> r == Pass && db.pages == old(db.pages) + PagesFrom(requested.value)
  {
    if requested.Err? {
      return Fail(requested.failure);
    }
    var models := PagesFrom(requested.value);
    db.pages := db.pages + models;
    return Pass;
  }

  // ---------------------------------------------------------------------------
  // The install response hook

  /** `installPath(for:next:)`: "/" + install root + "/" + step + "/", then
      "?next=true" when `next` holds. */
  function InstallPath(root: string, step: string, next: bool): (path: string)
    ensures |path| == |root| + |step| + 3 + (if next then 10 else 0)
    ensures path[..|root| + 2] == "/" + root + "/"
    ensures path[|root| + 2..|root| + 2 + |step|] == step
    ensures path[|root| + 2 + |step|] == '/'
    ensures next <==> path[|path| - 1] != '/'
    ensures next ==> path[|path| - 10..] == "?next=true"
  {
    "/" + root + "/" + step + "/" + (if next then "?next=true" else "")
  }

  /** The rendered page of a step that is not being performed. */
  datatype InstallPage = InstallPage(icon: string, title: string, message: string, link: Link)

  /** What the hook answers: a redirect, or a rendered page. */
  datatype Response = Redirect(location: string) | Render(page: InstallPage)

  /** `Feather.config.install`: the current step and whether installation is done. */
  datatype InstallState = InstallState(currentStep: string, isCompleted: bool)

  const SetupMessage: string := "First we have to setup the necessary components."

  function StartPage(url: string): InstallPage {
    InstallPage("\U{1FAB6}", "Install site", SetupMessage, Link("Start installation →", url))
  }

  function CustomPage(url: string): InstallPage {
    InstallPage("\U{1F4AA}", "Custom step site", SetupMessage, Link("Start installation →", url))
  }

  function FinishPage(url: string): InstallPage {
    InstallPage("\U{1FAB6}", "Setup completed", "Your site is now ready to use.", Link("Let's get started →", url))
  }

  /** One request to the install response hook, on state `s`: `performStep` is the
      request's `next` query flag, `nextStep` the step after the current one, and
      `install` what the `install` handlers do when invoked. Gives the new state and
      the hook's answer (nil when the step is not one WebModule handles). */
  function InstallResponse(s: InstallState, root: string, performStep: bool, nextStep: string, install: Outcome)
    : (r: (InstallState, Result<Option<Response>>))
    // the start step runs the install handlers first; if they fail, nothing changes
    ensures r.1.Err? <==> s.currentStep == StartStep && performStep && install.Fail?
    ensures r.1.Err? ==> r.0 == s && r.1.failure == install.failure
    ensures s.currentStep == StartStep && performStep && install.Pass? ==>
      r.0 == s.(currentStep := nextStep) && r.1 == Ok(Some(Redirect(InstallPath(root, nextStep, false))))
    // the custom step advances without running any handler
    ensures s.currentStep == CustomStep && performStep ==>
      r.0 == s.(currentStep := nextStep) && r.1 == Ok(Some(Redirect(InstallPath(root, nextStep, false))))
    // the finish step completes the installation and sends the user home
    ensures s.currentStep == FinishStep && performStep ==>
      r.0 == s.(isCompleted := true) && r.1 == Ok(Some(Redirect("/")))
    // without the flag the state is untouched and a known step renders its page
    ensures !performStep ==> r.0 == s
    ensures !performStep && (s.currentStep == StartStep || s.currentStep == CustomStep || s.currentStep == FinishStep) ==>
      r.1.Ok? && r.1.value.Some? && r.1.value.value.Render? &&
      r.1.value.value.page.link.url == InstallPath(root, s.currentStep, true)
    // any other step is not this hook's business
    ensures s.currentStep != StartStep && s.currentStep != CustomStep && s.currentStep != FinishStep ==>
      r == (s, Ok(None))
    // completion is only ever switched on, and only by performing the finish step
    ensures r.0.isCompleted == (s.isCompleted || (s.currentStep == FinishStep && performStep))
  {
    if s.currentStep == StartStep then
      if performStep then
        if install.Fail? then (s, Err(install.failure))
        else (s.(currentStep := nextStep), Ok(Some(Redirect(InstallPath(root, nextStep, false)))))
      else (s, Ok(Some(Render(StartPage(InstallPath(root, s.currentStep, true))))))
    else if s.currentStep == CustomStep then
      if performStep then (s.(currentStep := nextStep), Ok(Some(Redirect(InstallPath(root, nextStep, false)))))
      else (s, Ok(Some(Render(CustomPage(InstallPath(root, s.currentStep, true))))))
    else if s.currentStep == FinishStep then
      if performStep then (s.(isCompleted := true), Ok(Some(Redirect("/"))))
      else (s, Ok(Some(Render(FinishPage(InstallPath(root, s.currentStep, true))))))
    else (s, Ok(None))
  }

  /** The process-wide configuration the hook reads and updates. */
  class FeatherConfig {
    /** `Feather.config.paths.install`, the root of the installer's URLs. */
    const installRoot: string
    var currentStep: string
    var isCompleted: bool

    constructor (installRoot: string, currentStep: string, isCompleted: bool)
      ensures this.installRoot == installRoot
      ensures this.currentStep == currentStep && this.isCompleted == isCompleted
    {
      this.installRoot := installRoot;
      this.currentStep := currentStep;
      this.isCompleted := isCompleted;
    }

    function State(): InstallState
      reads this
    {
      InstallState(currentStep, isCompleted)
    }
  }

  /** `installResponseHook`: `nextQuery` is the request's `next` query value (absent
      means false), `nextStep` is `args.nextInstallStep`, `install` the combined
      outcome of the `install` handlers. */
  method InstallResponseHook(config: FeatherConfig, nextQuery: Option<bool>, nextStep: string, install: Outcome)
    returns (r: Result<Option<Response>>)
    modifies config
    ensures (config.State(), r) ==
      InstallResponse(old(config.State()), config.installRoot, nextQuery.GetOr(false), nextStep, install)
  {
    var currentStep := config.currentStep;
    var performStep := nextQuery.GetOr(false);

    if currentStep == StartStep {
      if performStep {
        if install.Fail? {
          return Err(install.failure);
        }
        config.currentStep := nextStep;
        return Ok(Some(Redirect(InstallPath(config.installRoot, nextStep, false))));
      }
      return Ok(Some(Render(StartPage(InstallPath(config.installRoot, currentStep, true)))));
    }

    if currentStep == CustomStep {
      if performStep {
        config.currentStep := nextStep;
        return Ok(Some(Redirect(InstallPath(config.installRoot, nextStep, false))));
      }
      return Ok(Some(Render(CustomPage(InstallPath(config.installRoot, currentStep, true)))));
    }

    if currentStep == FinishStep {
      if performStep {
        config.isCompleted := true;
        return Ok(Some(Redirect("/")));
      }
      return Ok(Some(Render(FinishPage(InstallPath(config.installRoot, currentStep, true)))));
    }

    return Ok(None);
  }

  // ---------------------------------------------------------------------------
  // Properties

  /** The link on a rendered page is the redirect target of the same step plus the flag. */
  lemma NextLinkExtendsPath(root: string, step: string)
    ensures InstallPath(root, step, true) == InstallPath(root, step, false) + "?next=true"
  {
  }

  /** Different steps (or flags) never share an install path. */
  lemma InstallPathInjective(root: string, a: string, na: bool, b: string, nb: bool)
    requires InstallPath(root, a, na) == InstallPath(root, b, nb)
    ensures a == b && na == nb
  {
  }

  /** The step WebModule contributes is one its response hook answers for. */
  lemma ContributedStepsAreHandled(s: InstallState, root: string, performStep: bool, nextStep: string, install: Outcome)
    requires s.currentStep in Keys(InstallStepHook())
    ensures InstallResponse(s, root, performStep, nextStep, install).1 != Ok(None)
  {
  }

  function Keys(steps: seq<InstallStep>): set<string> {
    set i | 0 <= i < |steps| :: steps[i].key
  }

  /** One request: its `next` query value, the next step and the install handlers' outcome. */
  datatype InstallRequest = InstallRequest(nextQuery: Option<bool>, nextStep: string, install: Outcome)

  /** The state after serving the requests one after another. */
  function Run(s: InstallState, root: string, requests: seq<InstallRequest>): InstallState
    decreases |requests|
  {
    if requests == [] then s
    else
      var q := requests[0];
      Run(InstallResponse(s, root, q.nextQuery.GetOr(false), q.nextStep, q.install).0, root, requests[1..])
  }

  /** Once installation is complete, no sequence of requests undoes it. */
  lemma {:induction false} CompletionIsPermanent(s: InstallState, root: string, requests: seq<InstallRequest>)
    requires s.isCompleted
    ensures Run(s, root, requests).isCompleted
    decreases |requests|
  {
    if requests != [] {
      var q := requests[0];
      CompletionIsPermanent(InstallResponse(s, root, q.nextQuery.GetOr(false), q.nextStep, q.install).0, root, requests[1..]);
    }
  }

  /** Requests that do not ask to perform a step leave the configuration as it was. */
  lemma {:induction false} ViewingChangesNothing(s: InstallState, root: string, requests: seq<InstallRequest>)
    requires forall i :: 0 <= i < |requests| ==> !requests[i].nextQuery.GetOr(false)
    ensures Run(s, root, requests) == s
    decreases |requests|
  {
    if requests != [] {
      ViewingChangesNothing(s, root, requests[1..]);
    }
  }

  /** The current step is always the initial one or the next step of some request. */
  lemma {:induction false} StepsComeFromRequests(s: InstallState, root: string, requests: seq<InstallRequest>)
    ensures var t := Run(s, root, requests);
      t.currentStep == s.currentStep || exists i :: 0 <= i < |requests| && t.currentStep == requests[i].nextStep
    decreases |requests|
  {
    if requests != [] {
      var q := requests[0];
      var s' := InstallResponse(s, root, q.nextQuery.GetOr(false), q.nextStep, q.install).0;
      StepsComeFromRequests(s', root, requests[1..]);
      var t := Run(s', root, requests[1..]);
      if t.currentStep != s'.currentStep {
        var i :| 0 <= i < |requests[1..]| && t.currentStep == requests[1..][i].nextStep;
        assert t.currentStep == requests[i + 1].nextStep;
      }
    }
  }

  /** A failed install attempt followed by a successful retry leaves the configuration
      where a single successful attempt leaves it. */
  lemma RetryAfterFailedInstall(s: InstallState, root: string, nextStep: string, failure: Failure)
    requires s.currentStep == StartStep
    ensures Run(s, root, [InstallRequest(Some(true), nextStep, Fail(failure)), InstallRequest(Some(true), nextStep, Pass)])
         == Run(s, root, [InstallRequest(Some(true), nextStep, Pass)])
  {
  }

  /** Performing the start, custom and finish steps in turn completes the installation
      and leaves the step at `finish`, whether or not the flag was already set, whatever
      the handlers report once `start` is done, and whatever the final request names. */
  lemma FullInstallation(root: string, completed: bool, install: Outcome, lastStep: string, lastInstall: Outcome)
    ensures Run(InstallState(StartStep, completed), root,
      [InstallRequest(Some(true), CustomStep, Pass),
       InstallRequest(Some(true), FinishStep, install),
       InstallRequest(Some(true), lastStep, lastInstall)]) == InstallState(FinishStep, true)
  {
    var q := [InstallRequest(Some(true), CustomStep, Pass),
              InstallRequest(Some(true), FinishStep, install),
              InstallRequest(Some(true), lastStep, lastInstall)];
    assert q[1..] == [q[1], q[2]] && q[1..][1..] == [q[2]] && q[1..][1..][1..] == [];
    assert Run(InstallState(FinishStep, completed), root, q[1..][1..]) == InstallState(FinishStep, true);
    assert Run(InstallState(CustomStep, completed), root, q[1..]) == InstallState(FinishStep, true);
  }
}
