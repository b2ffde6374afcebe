/** The authorization modal's pages (`TLogin`) and the `pageData` table of
    `LoginModalWrapper`: each page's title and the page its footer leads to, what
    is rendered for a page or for null, and how the pages' own buttons move
    between them. */
module AuthPages {
  import opened Common

  datatype LoginPage = Login | Registration | Recovery

  /** `'login' | 'registration' | 'recovery' | null` */
  type TLogin = Option<LoginPage>

  datatype PageEntry = PageEntry(title: string, footerTarget: LoginPage)

  function PageData(p: LoginPage): (e: PageEntry)
    ensures e.footerTarget == if p == Login then Registration else Login
  {
    match p
    case Login => PageEntry("Log In", Registration)
    case Registration => PageEntry("Create an account", Login)
    case Recovery => PageEntry("Восстановление пароля", Login)
  }

  /** Every page has its own title. */
  lemma TitlesDistinct(p: LoginPage, q: LoginPage)
    ensures PageData(p).title == PageData(q).title <==> p == q
  {
  }

  datatype Tab = EmailTab | PhoneTab

  /** What the wrapper shows: the title, the page component inside each tab, and
      the footer's target. */
  datatype View = View(title: Option<string>, emailTab: Option<LoginPage>, phoneTab: Option<LoginPage>,
                       footerTarget: Option<LoginPage>)

  function Render(t: TLogin): (v: View)
    ensures t.None? <==> v.title.None?
    ensures t.None? <==> v.footerTarget.None?
    ensures v.emailTab == v.phoneTab == t
  {
    match t
    case None => View(None, None, None, None)
    case Some(p) => View(Some(PageData(p).title), Some(p), Some(p), Some(PageData(p).footerTarget))
  }

  /** The events the pages offer: the wrapper's footer, the login form's
      "Forgot your password?", a successful login, a successful registration and
      the recovery page's "Continue". */
  datatype AuthEvent = FooterClicked | ForgotPassword | SignedIn | SignedUp | RecoveryContinue

  /** `onModalChange` as driven by each event; an event the current page does not
      offer changes nothing, and null offers none. */
  function Navigate(t: TLogin, e: AuthEvent): (r: TLogin)
    ensures t.None? ==> r.None?
    ensures r.None? ==> t.None? || (t == Some(Login) && e == SignedIn) || (t == Some(Recovery) && e == RecoveryContinue)
  {
    match (t, e)
    case (Some(p), FooterClicked) => Some(PageData(p).footerTarget)
    case (Some(Login), ForgotPassword) => Some(Recovery)
    case (Some(Login), SignedIn) => None
    case (Some(Registration), SignedUp) => Some(Login)
    case (Some(Recovery), RecoveryContinue) => None
    case _ => t
  }

  /** The outward effects of an authorization form's submit handler, in order. */
  datatype Effect =
    | SetCookie(name: string, value: string)
    | InvalidateQueries(queryKey: seq<string>)
    | ModalChange(target: TLogin)
    | SetExternalErrors(errors: map<string, Option<string>>)

  /** Login and registration are one footer click apart in both directions, and
      the recovery page's footer leads back to login. */
  lemma FooterRoundTrips(p: LoginPage)
    ensures p != Recovery ==> Navigate(Navigate(Some(p), FooterClicked), FooterClicked) == Some(p)
    ensures Navigate(Some(Recovery), FooterClicked) == Some(Login)
    ensures Navigate(Navigate(Some(Login), ForgotPassword), FooterClicked) == Some(Login)
  {
  }
}
