/** The top-level router's vocabulary: the eight screens, the root
    component's eight render guards, and the bottom navigation bar. */
module Screens {

  datatype Screen = Onboarding | Setup | Home | Chat | Voice | Activities | Wellness | Settings

  /** The root component tests `currentScreen === s` for each screen, in this
      order, and renders the screens whose test holds. */
  const RenderOrder: seq<Screen> := [Onboarding, Setup, Home, Chat, Voice, Activities, Wellness, Settings]

  /** Where each screen's test sits in the root's render order. */
  function RenderRank(s: Screen): (r: nat)
    ensures r < |RenderOrder| && RenderOrder[r] == s
  {
    match s
    case Onboarding => 0
    case Setup => 1
    case Home => 2
    case Chat => 3
    case Voice => 4
    case Activities => 5
    case Wellness => 6
    case Settings => 7
  }

  /** The bottom bar's five buttons, left to right. */
  const NavButtons: seq<Screen> := [Home, Chat, Activities, Wellness, Settings]

  /** The screens that draw the bottom bar; each passes its own name as the
      bar's `currentScreen` prop. The chat screen has none. */
  predicate HostsBottomNav(s: Screen) {
    s == Home || s == Activities || s == Wellness || s == Settings
  }

  predicate Distinct(order: seq<Screen>) {
    forall i, j :: 0 <= i < j < |order| ==> order[i] != order[j]
  }

  /** A bar button's `isActive` test. */
  predicate IsActive(current: Screen, button: Screen) {
    current == button
  }

  /** The entries of `order` whose `current === s` test holds, in order: the
      screens rendered by the root, or the bar's active buttons. */
  function Matching(order: seq<Screen>, current: Screen): (r: seq<Screen>)
    ensures |r| <= |order|
    ensures forall s :: s in r ==> s == current && s in order
  {
    if order == [] then []
    else if IsActive(current, order[0]) then [order[0]] + Matching(order[1..], current)
    else Matching(order[1..], current)
  }

  /** In a list without repetitions, exactly the entry equal to `current`
      matches, if there is one, and nothing otherwise. */
  lemma {:induction false} MatchingDistinct(order: seq<Screen>, current: Screen)
    requires Distinct(order)
    ensures Matching(order, current) == if current in order then [current] else []
  {
    if order != [] {
      assert Distinct(order[1..]);
      MatchingDistinct(order[1..], current);
      if order[0] == current {
        assert current !in order[1..];
      }
    }
  }

  /** Exactly one screen renders at any time: the current one. */
  lemma ExactlyOneRenders(current: Screen)
    ensures Matching(RenderOrder, current) == [current]
  {
    RenderOrderDistinct();
    assert RenderOrder[RenderRank(current)] == current;
    MatchingDistinct(RenderOrder, current);
  }

  /** No screen is tested twice: each entry of the render order sits at its
      own rank. */
  lemma RenderOrderDistinct()
    ensures Distinct(RenderOrder)
  {
    forall i | 0 <= i < |RenderOrder| ensures RenderRank(RenderOrder[i]) == i {
    }
  }

  /** Exactly one bar button is active when the current screen is one of the
      five, and none otherwise. */
  lemma NavActiveIffNavScreen(current: Screen)
    ensures |Matching(NavButtons, current)| == 1 <==> current in NavButtons
    ensures current !in NavButtons ==> Matching(NavButtons, current) == []
    ensures current in NavButtons ==> Matching(NavButtons, current) == [current]
  {
    assert Distinct(NavButtons);
    MatchingDistinct(NavButtons, current);
    var m := Matching(NavButtons, current);
    assert current in NavButtons ==> m == [current];
    assert current !in NavButtons ==> m == [];
  }

  /** Wherever the bar is drawn, its host's own button is the one active
      button; the Chat button is never drawn active. */
  lemma ShownNavHasOneActive(host: Screen)
    requires HostsBottomNav(host)
    ensures Matching(NavButtons, host) == [host]
    ensures Chat !in Matching(NavButtons, host)
  {
    NavActiveIffNavScreen(host);
  }

  /** The screen changes each screen's own controls offer (not counting
      Complete Setup and End Call, which are handlers of their own):
      onboarding's Get Started; home's quick actions, activity links and
      bar; chat's back arrow and call button; the voice screen's back arrow;
      the back arrows of activities, wellness and settings; and the bar's
      five buttons on its four hosts. */
  predicate Offers(from: Screen, to: Screen) {
    (from == Onboarding && to == Setup)
    || (from == Home && (to == Chat || to == Voice || to == Activities || to == Wellness))
    || (from == Chat && (to == Home || to == Voice))
    || (from == Voice && to == Chat)
    || ((from == Activities || from == Wellness || from == Settings) && to == Home)
    || (HostsBottomNav(from) && to in NavButtons)
  }

  /** Only onboarding leads into setup; nothing leads back to onboarding;
      setup offers no link at all; the voice screen leads only to chat. */
  lemma OffersAtTheEdges(from: Screen, to: Screen)
    ensures Offers(from, Setup) <==> from == Onboarding
    ensures !Offers(from, Onboarding)
    ensures !Offers(Setup, to)
    ensures Offers(Voice, to) <==> to == Chat
  {
  }

  /** A walk along offered links without the wizard's own exit. */
  predicate IsRoute(path: seq<Screen>) {
    forall i :: 0 <= i < |path| - 1 ==> Offers(path[i], path[i + 1])
  }

  /** A walk along offered links that starts past the wizard never comes
      back to onboarding or setup. */
  lemma {:induction false} RouteNeverReturns(path: seq<Screen>)
    requires IsRoute(path) && |path| > 0
    requires path[0] != Onboarding && path[0] != Setup
    ensures forall i :: 0 <= i < |path| ==> path[i] != Onboarding && path[i] != Setup
  {
    if |path| > 1 {
      var rest := path[1..];
      assert Offers(path[0], path[1]);
      assert IsRoute(rest) by {
        forall i | 0 <= i < |rest| - 1 ensures Offers(rest[i], rest[i + 1]) {
          assert rest[i] == path[i + 1] && rest[i + 1] == path[i + 2];
        }
      }
      RouteNeverReturns(rest);
      forall i | 0 <= i < |path| ensures path[i] != Onboarding && path[i] != Setup {
        if i > 0 {
          assert path[i] == rest[i - 1];
        }
      }
    }
  }
}
