/**
 * The application shell: which view is current, who is signed in, and which
 * component the main area renders for that state. The administrator is
 * recognised by one hard-coded e-mail address.
 */
module AppShell {

  const ADMIN_EMAIL: string := "dlokeshwargoud@gmail.com"

  datatype View = Login | Dashboard | ApplyLeave | AdminDashboard

  /** What the shell shows: the loading screen, one component, or an empty main area. */
  datatype Screen = LoadingScreen | LoginScreen | DashboardScreen | LeaveFormScreen | AdminScreen | EmptyMain

  /** The view a user lands on after signing in: the admin table for the admin, the dashboard for everybody else. */
  function HomeView(email: string): (v: View)
    ensures v == AdminDashboard <==> email == ADMIN_EMAIL
    ensures v == Dashboard <==> email != ADMIN_EMAIL
  {
    if email == ADMIN_EMAIL then AdminDashboard else Dashboard
  }

  /**
   * The render guards: while loading only the loading screen shows; otherwise
   * the component of the current view, provided the user's role fits it.
   */
  function Render(loading: bool, view: View, email: string): (s: Screen)
    ensures loading <==> s == LoadingScreen
    ensures s == LoginScreen <==> !loading && view == Login
    ensures s == DashboardScreen <==> !loading && view == Dashboard && email != ADMIN_EMAIL
    ensures s == LeaveFormScreen <==> !loading && view == ApplyLeave && email != ADMIN_EMAIL
    ensures s == AdminScreen <==> !loading && view == AdminDashboard && email == ADMIN_EMAIL
  {
    if loading then LoadingScreen
    else match view
      case Login => LoginScreen
      case Dashboard => if email != ADMIN_EMAIL then DashboardScreen else EmptyMain
      case ApplyLeave => if email != ADMIN_EMAIL then LeaveFormScreen else EmptyMain
      case AdminDashboard => if email == ADMIN_EMAIL then AdminScreen else EmptyMain
  }

  /** The header shows the e-mail and the logout button once loading is over and the e-mail is not empty. */
  predicate ShowsLogout(loading: bool, email: string)
  {
    !loading && email != ""
  }

  /** The current view fits the signed-in user's role. */
  predicate RoleConsistent(view: View, email: string)
  {
    match view
    case Login => true
    case AdminDashboard => email == ADMIN_EMAIL
    case _ => email != ADMIN_EMAIL
  }

  /** A view that fits the role always renders a component; the main area is empty only when they disagree. */
  lemma ConsistentStateRenders(view: View, email: string)
    ensures RoleConsistent(view, email) <==> Render(false, view, email) != EmptyMain
  {
  }

  /** The landing view always fits the user who lands on it. */
  lemma HomeViewConsistent(email: string)
    ensures RoleConsistent(HomeView(email), email)
    ensures Render(false, HomeView(email), email) == (if email == ADMIN_EMAIL then AdminScreen else DashboardScreen)
  {
  }

  /** What the identity provider says about the session at startup. */
  datatype Session = Unavailable | NoUser | SignedIn(username: string)

  class App {
    var currentView: View
    var userEmail: string
    var loading: bool

    constructor ()
      ensures currentView == Login && userEmail == "" && loading
    {
      currentView := Login;
      userEmail := "";
      loading := true;
    }

    /** `initializeApp`: restore the session, if any; loading is over in every outcome. */
    method InitializeApp(session: Session)
      modifies this
      ensures !loading
      ensures session.SignedIn? ==> userEmail == session.username && currentView == HomeView(session.username)
      ensures !session.SignedIn? ==> userEmail == old(userEmail) && currentView == Login
      ensures old(userEmail) == "" ==> RoleConsistent(currentView, userEmail)
      ensures session.SignedIn? ==> (ShowsLogout(loading, userEmail) <==> session.username != "")
    {
      if session.SignedIn? {
        userEmail := session.username;
        currentView := HomeView(userEmail);
      } else {
        currentView := Login;
      }
      loading := false;
    }

    /** `handleLoginSuccess`: remember the e-mail and go to its landing view. */
    method HandleLoginSuccess(email: string)
      modifies this
      ensures userEmail == email && currentView == HomeView(email) && loading == old(loading)
      ensures RoleConsistent(currentView, userEmail)
      ensures !loading ==> (ShowsLogout(loading, userEmail) <==> email != "")
    {
      userEmail := email;
      currentView := HomeView(email);
    }

    /** `handleLogout`: a successful sign-out forgets the user; a failed one changes nothing. */
    method HandleLogout(signedOut: bool)
      modifies this
      ensures signedOut ==> userEmail == "" && currentView == Login && !ShowsLogout(loading, userEmail)
      ensures !signedOut ==> userEmail == old(userEmail) && currentView == old(currentView)
      ensures loading == old(loading)
      ensures RoleConsistent(currentView, userEmail) <== old(RoleConsistent(currentView, userEmail))
    {
      if signedOut {
        userEmail := "";
        currentView := Login;
      }
    }

    /** The dashboard's "apply new leave" button. */
    method ApplyNewLeave()
      modifies this
      ensures currentView == ApplyLeave && userEmail == old(userEmail) && loading == old(loading)
      ensures old(Render(loading, currentView, userEmail)) == DashboardScreen
              ==> Render(loading, currentView, userEmail) == LeaveFormScreen
    {
      currentView := ApplyLeave;
    }

    /** The leave form's two callbacks, after a submission and on "back": both return to the dashboard. */
    method LeaveFormDone()
      modifies this
      ensures currentView == Dashboard && userEmail == old(userEmail) && loading == old(loading)
      ensures old(Render(loading, currentView, userEmail)) == LeaveFormScreen
              ==> Render(loading, currentView, userEmail) == DashboardScreen
    {
      currentView := Dashboard;
    }
  }
}
