/** The navigation guard and scroll behaviour of src/router/index.ts, as
    functions of the navigation target and the stored token. */
module Router {
  import opened Common

  /** The `meta` of one route record; either field may be absent. */
  datatype RouteMeta = RouteMeta(requiresAuth: Option<bool>, title: Option<string>)

  /** A navigation target: route name, full path, its (merged) meta, and the
      metas of the route records it matched, outermost first. */
  datatype Target = Target(name: Option<string>, fullPath: string, meta: RouteMeta, matched: seq<RouteMeta>)

  /** What the guard passes to `next`. */
  datatype Decision = Proceed | RedirectToLogin(redirect: string) | RedirectToDashboard

  /** The guard's two effects: the document title it writes and its decision. */
  datatype GuardResult = GuardResult(title: string, decision: Decision)

  datatype ScrollPosition = ScrollPosition(left: Option<int>, top: int)

  const TitleSuffix := " - Oliver System"
  const DefaultTitle := "Oliver Personal System"

  /** The metas of the route table's records. */
  const LoginMeta := RouteMeta(Some(false), Some("登录"))
  const LayoutMeta := RouteMeta(Some(true), None)
  const DashboardMeta := RouteMeta(None, Some("仪表盘"))
  const NotFoundMeta := RouteMeta(None, Some("页面未找到"))

  /** The document title: the route's title with the site suffix, or the default
      title when the route has none (or an empty one). */
  function PageTitle(meta: RouteMeta): (t: string)
    ensures Truthy(meta.title) ==> t == meta.title.value + TitleSuffix
    ensures !Truthy(meta.title) ==> t == DefaultTitle
  {
    if Truthy(meta.title) then meta.title.value + TitleSuffix else DefaultTitle
  }

  /** `to.matched.some(record => record.meta.requiresAuth !== false)`. */
  function RequiresAuth(matched: seq<RouteMeta>): (r: bool)
    ensures r <==> exists i :: 0 <= i < |matched| && matched[i].requiresAuth != Some(false)
  {
    if matched == [] then false
    else matched[0].requiresAuth != Some(false) || RequiresAuth(matched[1..])
  }

  /** `beforeEach`: a protected target without a token goes to Login, remembering
      where it was headed; Login with a token goes to the Dashboard; everything
      else proceeds. */
  function BeforeEach(to: Target, token: Option<string>): (r: GuardResult)
    ensures r.title == PageTitle(to.meta)
    ensures r.decision.RedirectToLogin? <==> RequiresAuth(to.matched) && !Truthy(token)
    ensures r.decision.RedirectToLogin? ==> r.decision.redirect == to.fullPath
    ensures r.decision.RedirectToDashboard? <==>
      !(RequiresAuth(to.matched) && !Truthy(token)) && to.name == Some("Login") && Truthy(token)
  {
    var decision :=
      if RequiresAuth(to.matched) && !Truthy(token) then RedirectToLogin(to.fullPath)
      else if to.name == Some("Login") && Truthy(token) then RedirectToDashboard
      else Proceed;
    GuardResult(PageTitle(to.meta), decision)
  }

  /** A target that matched nothing never needs a token. */
  lemma EmptyMatchIsPublic(to: Target, token: Option<string>)
    requires to.matched == []
    ensures !BeforeEach(to, token).decision.RedirectToLogin?
  {
  }

  /** The Login route opts out of authentication: without a token it opens, with
      one it sends the user to the Dashboard. */
  lemma LoginRoute(path: string, token: Option<string>)
    ensures var to := Target(Some("Login"), path, LoginMeta, [LoginMeta]);
      BeforeEach(to, token) ==
        GuardResult("登录" + TitleSuffix, if Truthy(token) then RedirectToDashboard else Proceed)
  {
  }

  /** The catch-all NotFound route sets no `requiresAuth`, so an unknown path
      visited without a token is sent to Login. */
  lemma UnknownPathNeedsLogin(path: string, token: Option<string>)
    requires !Truthy(token)
    ensures BeforeEach(Target(Some("NotFound"), path, NotFoundMeta, [NotFoundMeta]), token).decision ==
      RedirectToLogin(path)
  {
  }

  /** A page under the main layout is protected through the layout's record. */
  lemma DashboardNeedsLogin(token: Option<string>)
    requires !Truthy(token)
    ensures BeforeEach(Target(Some("Dashboard"), "/", RouteMeta(Some(true), Some("仪表盘")), [LayoutMeta, DashboardMeta]), token) ==
      GuardResult("仪表盘" + TitleSuffix, RedirectToLogin("/"))
  {
  }

  /** `scrollBehavior`: the saved position when there is one, else the top. */
  function ScrollBehavior(saved: Option<ScrollPosition>): (p: ScrollPosition)
    ensures saved.Some? ==> p == saved.value
    ensures saved.None? ==> p == ScrollPosition(None, 0)
  {
    if saved.Some? then saved.value else ScrollPosition(None, 0)
  }
}
