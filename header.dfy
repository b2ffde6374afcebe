/** The header component: which modal is open and whether it is shown, the
    search overlay, the streamer button, the unread-notification badge and the
    auth gate's effect on component state and `localStorage`. Navigation and the
    search request are returned as values; the router and the search service are
    not modelled. */
module Header {
  import opened Common
  import opened JsNumber
  import AuthGate

  datatype ModalType = BecomeStreamer | Login | Registration | StartStream | Recovery | Auth

  /** The fields of the `getProfile` answer the header reads. */
  datatype Profile = Profile(roles: Option<seq<string>>)

  datatype Subscriber = Subscriber(status: string)

  /** A router call: `push(path)` or `replace(path)`. */
  datatype Route = Video(id: string) | Results(query: Option<string>)
  datatype Navigation = Push(route: Route) | Replace(route: Route)

  /** One entry of the `modals` table; the close flags are `None` where the
      entry leaves them unset and `ModalWrapper`'s defaults apply. */
  datatype ModalEntry = ModalEntry(title: string, withCloseIcon: Option<bool>, isClosable: Option<bool>)

  function Modals(m: ModalType): (e: ModalEntry)
    ensures e.isClosable == Some(false) <==> m == Auth
    ensures e.withCloseIcon == Some(false) <==> m == Auth
    ensures e.isClosable.None? <==> m != Auth
  {
    match m
    case Login => ModalEntry("", None, None)
    case Registration => ModalEntry("", None, None)
    case Recovery => ModalEntry("", None, None)
    case BecomeStreamer => ModalEntry("Become Streamer", None, None)
    case StartStream => ModalEntry("Broadcast Information", None, None)
    case Auth => ModalEntry("Sign In to Have Access to All Materials of the Tyrian Community", Some(false), Some(false))
  }

  /** The guard around `<ModalWrapper>`. */
  predicate ModalShown(modalType: Option<ModalType>, user: Option<Profile>) {
    modalType == Some(BecomeStreamer) || modalType == Some(StartStream)
    || (modalType == Some(Auth) && user.None?)
  }

  /** The modals the header can show are exactly the ones with a title, and the
      only one explicitly made non-closable is the auth gate, shown only to a
      visitor without a user. */
  lemma ShownModalsHaveTitles(m: ModalType, user: Option<Profile>)
    ensures ModalShown(Some(m), user) ==> Modals(m).title != ""
    ensures Modals(m).title == "" <==> m in {Login, Registration, Recovery}
    ensures ModalShown(Some(m), user) && Modals(m).isClosable == Some(false) ==> m == Auth && user.None?
  {
  }

  /** `user?.roles?.indexOf('streamer') !== -1 ? 'startStream' : 'becomeStreamer'`:
      an absent user or roles list gives `undefined`, which differs from -1. */
  function StreamerChoice(user: Option<Profile>): (m: ModalType)
    ensures m == StartStream || m == BecomeStreamer
    ensures m == BecomeStreamer <==>
      user.Some? && user.value.roles.Some? && "streamer" !in user.value.roles.value
  {
    if user.None? || user.value.roles.None? then StartStream
    else if IndexOf(user.value.roles.value, "streamer") != -1 then StartStream
    else BecomeStreamer
  }

  /** `subscribers.filter(n => n.status === 'unread').length` */
  function UnreadCount(subscribers: seq<Subscriber>): (n: nat)
    ensures n <= |subscribers|
    ensures n == 0 <==> forall i :: 0 <= i < |subscribers| ==> subscribers[i].status != "unread"
    ensures n == |subscribers| <==> forall i :: 0 <= i < |subscribers| ==> subscribers[i].status == "unread"
  {
    if |subscribers| == 0 then 0
    else
      var rest := UnreadCount(subscribers[1..]);
      assert forall i :: 1 <= i < |subscribers| ==> subscribers[i] == subscribers[1..][i - 1];
      (if subscribers[0].status == "unread" then 1 else 0) + rest
  }

  /** The badge count of two lists together is the sum of their counts. */
  lemma {:induction false} UnreadCountAppend(a: seq<Subscriber>, b: seq<Subscriber>)
    ensures UnreadCount(a + b) == UnreadCount(a) + UnreadCount(b)
  {
    if |a| > 0 {
      UnreadCountAppend(a[1..], b);
      assert (a + b)[1..] == a[1..] + b;
      assert (a + b)[0] == a[0];
    } else {
      assert a + b == b;
    }
  }

  class HeaderState {
    var modalType: Option<ModalType>
    var isOpenMobileMenu: bool
    var searchValue: string
    var searchOpen: bool
    /** `searchResults` state (the overlay itself lists the search mutation's data). */
    var searchResults: seq<string>
    /** The delay of the armed auth timer, if one was armed. */
    var authTimer: Option<Num>
    var user: Option<Profile>
    var storage: map<string, string>

    constructor (storage0: map<string, string>, user0: Option<Profile>)
      ensures modalType == None && !isOpenMobileMenu && searchValue == "" && !searchOpen
      ensures searchResults == [] && authTimer == None && user == user0 && storage == storage0
    {
      modalType := None;
      isOpenMobileMenu := false;
      searchValue := "";
      searchOpen := false;
      searchResults := [];
      authTimer := None;
      user := user0;
      storage := storage0;
    }

    /** `handleSearch`: the value is always stored; a non-blank value opens the
        overlay and issues a search request for it; a blank one clears the
        results and closes the overlay. */
    method HandleSearch(value: string) returns (request: Option<string>)
      modifies this`searchValue, this`searchOpen, this`searchResults
      ensures searchValue == value
      ensures !IsBlank(value) ==> searchOpen && request == Some(value) && searchResults == old(searchResults)
      ensures IsBlank(value) ==> !searchOpen && request == None && searchResults == []
    {
      searchValue := value;
      TrimEmptyIffBlank(value);
      if |Trim(value)| != 0 {
        searchOpen := true;
        request := Some(value);
      } else {
        searchResults := [];
        searchOpen := false;
        request := None;
      }
    }

    /** A click outside the overlay closes it and resets the search value. */
    method ClickOutside()
      modifies this`searchOpen, this`searchValue
      ensures !searchOpen && searchValue == ""
    {
      searchOpen := false;
      searchValue := "";
    }

    /** `handleClickStream`: go to the stream's page, close and reset. */
    method ClickStream(id: string) returns (nav: Navigation)
      modifies this`searchOpen, this`searchValue
      ensures nav == Push(Video(id))
      ensures !searchOpen && searchValue == ""
    {
      nav := Push(Video(id));
      searchOpen := false;
      searchValue := "";
    }

    /** `handleKeyDown`: Enter replaces the route with the results page for the
        current value and closes the overlay, keeping the value. */
    method KeyDown(key: string) returns (nav: Option<Navigation>)
      modifies this`searchOpen
      ensures key == "Enter" ==> nav == Some(Replace(Results(Some(searchValue)))) && !searchOpen
      ensures key != "Enter" ==> nav == None && searchOpen == old(searchOpen)
    {
      if key == "Enter" {
        nav := Some(Replace(Results(Some(searchValue))));
        searchOpen := false;
      } else {
        nav := None;
      }
    }

    /** `handleGetSearchResults` ("Go to ..."): nothing for an empty value,
        otherwise push the results page (without the query) and close. */
    method GetSearchResults() returns (nav: Option<Navigation>)
      modifies this`searchOpen
      ensures searchValue == "" ==> nav == None && searchOpen == old(searchOpen)
      ensures searchValue != "" ==> nav == Some(Push(Results(None))) && !searchOpen
    {
      if |searchValue| == 0 {
        nav := None;
      } else {
        nav := Some(Push(Results(None)));
        searchOpen := false;
      }
    }

    /** A click on the search box reopens the overlay when the value is non-empty. */
    method ClickSearchBox()
      modifies this`searchOpen
      ensures searchOpen == (old(searchOpen) || searchValue != "")
    {
      if |searchValue| != 0 {
        searchOpen := true;
      }
    }

    /** `onBecomeStreamer` */
    method OnBecomeStreamer()
      modifies this`modalType, this`isOpenMobileMenu
      ensures modalType == Some(StreamerChoice(user)) && !isOpenMobileMenu
    {
      modalType := Some(StreamerChoice(user));
      isOpenMobileMenu := false;
    }

    /** `handleLogin`: selects the `login` modal, which the header never shows. */
    method HandleLogin()
      modifies this`modalType, this`isOpenMobileMenu
      ensures modalType == Some(Login) && !isOpenMobileMenu && !ModalShown(modalType, user)
    {
      modalType := Some(Login);
      isOpenMobileMenu := false;
    }

    /** `() => setModalType(null)`, the modal's `onClose` and the stream form's `closeModal`. */
    method CloseModal()
      modifies this`modalType
      ensures modalType == None
    {
      modalType := None;
    }

    /** One run of the auth-gate effect against this component's storage. */
    method RunAuthGate(isLoading: bool, profileId: Option<int>, now: int, env: Option<string>)
      returns (action: AuthGate.GateAction)
      modifies this`modalType, this`authTimer, this`storage
      ensures action == AuthGate.Step(isLoading, profileId,
        AuthGate.GetItem(old(storage), AuthGate.AuthCheckKey),
        AuthGate.GetItem(old(storage), AuthGate.TimeLeftKey), now, env)
      ensures action.Skip? ==>
        modalType == old(modalType) && authTimer == old(authTimer) && storage == old(storage)
      ensures action.OpenAuth? ==>
        modalType == Some(Auth) && authTimer == old(authTimer) && storage == old(storage)
      ensures action.Arm? ==>
        && modalType == old(modalType) && authTimer == Some(action.delay)
        && storage == AuthGate.Written(old(storage), now, action.delay)
    {
      var savedTime := AuthGate.GetItem(storage, AuthGate.AuthCheckKey);
      var currentTimeLeft := AuthGate.GetItem(storage, AuthGate.TimeLeftKey);
      action := AuthGate.Step(isLoading, profileId, savedTime, currentTimeLeft, now, env);
      match action {
        case Skip =>
        case OpenAuth =>
          modalType := Some(Auth);
        case Arm(delay) =>
          authTimer := Some(delay);
          storage := storage[AuthGate.AuthCheckKey := IntToString(now)];
          storage := storage[AuthGate.TimeLeftKey := NumToString(delay)];
      }
    }

    /** The armed timer fires. */
    method AuthTimerFires()
      requires authTimer.Some?
      modifies this`modalType
      ensures modalType == Some(Auth)
      ensures ModalShown(modalType, user) <==> user.None?
    {
      modalType := Some(Auth);
    }
  }
}
