/** The app's root container. It hosts one top-level screen at a time
    (authorization, then checkout), swaps screens with a crossfade, and
    presents the permissions screen modally when a permission is missing.

    The container's child list is the source of truth: the current screen is
    its first child. A crossfade adds the new screen as a second child at once
    and removes the old one only when the animation completes; completions
    that have not run yet are kept in a queue, in the order they were started. */
module ScreenHost {
  import Permissions

  /** The type of a screen (its view controller class). */
  datatype ScreenKind = AuthorizationScreen | PermissionsScreen | PayScreen

  /** A screen: its type and its identity. Two screens of one type are still
      different objects. */
  datatype Screen = Screen(kind: ScreenKind, id: nat)

  /** A crossfade whose completion has not run yet. */
  datatype Crossfade = Crossfade(from: Screen, to: Screen)

  datatype Option<T> = None | Some(value: T)

  /** No screen occurs twice. */
  predicate Distinct(screens: seq<Screen>)
  {
    forall i, j :: 0 <= i < j < |screens| ==> screens[i] != screens[j]
  }

  /** `screens` with `s` detached from its parent, if it was attached. */
  function Without(screens: seq<Screen>, s: Screen): (r: seq<Screen>)
    ensures forall x :: x in r <==> x in screens && x != s
    ensures Distinct(screens) ==> Distinct(r)
    ensures s !in screens ==> r == screens
    ensures screens != [] && screens[0] != s ==> r != [] && r[0] == screens[0]
  {
    if screens == [] then []
    else if screens[0] == s then Without(screens[1..], s)
    else
      var rest := Without(screens[1..], s);
      assert screens == [screens[0]] + screens[1..];
      assert Distinct(screens) ==> screens[0] !in rest && Distinct([screens[0]] + rest) by {
        if Distinct(screens) {
          assert screens[0] !in screens[1..] by {
            forall k | 1 <= k < |screens| ensures screens[k] != screens[0] { }
          }
          assert Distinct(screens[1..]) by {
            forall i, j | 0 <= i < j < |screens| - 1 ensures screens[1..][i] != screens[1..][j] {
              assert screens[1..][i] == screens[i + 1] && screens[1..][j] == screens[j + 1];
            }
          }
          var r := [screens[0]] + rest;
          forall i, j | 0 <= i < j < |r| ensures r[i] != r[j] {
            assert r[j] == rest[j - 1];
            if i > 0 { assert r[i] == rest[i - 1]; }
          }
        }
      }
      [screens[0]] + rest
  }

  /** The children after `show`: attach to an empty host; ignore a screen of
      the current screen's type; otherwise begin a crossfade, which leaves the
      current screen followed by the new one. */
  function ChildrenAfterShow(children: seq<Screen>, s: Screen): seq<Screen>
  {
    if children == [] then [s]
    else if children[0].kind == s.kind then children
    else [children[0], s]
  }

  /** Showing a screen on an empty host makes it the only child, and showing
      another screen of the same type right after changes nothing. */
  lemma ShowOnEmptyThenSameKind(s: Screen, t: Screen)
    requires t.kind == s.kind
    ensures ChildrenAfterShow([], s) == [s]
    ensures ChildrenAfterShow(ChildrenAfterShow([], s), t) == [s]
  {
  }

  /** A crossfade from the current screen to a new one of another type, once
      its completion has run, leaves the new screen as the only child. */
  lemma {:induction false} CrossfadeEndsWithOnlyNewScreen(children: seq<Screen>, s: Screen)
    requires children != [] && children[0].kind != s.kind
    ensures Without(ChildrenAfterShow(children, s), children[0]) == [s]
  {
    var from := children[0];
    assert from != s;
    assert ChildrenAfterShow(children, s) == [from] + [s];
    assert Without([s], from) == [s];
  }

  /** `show` during a crossfade (children `[from, to]`): a screen of another
      type than `from` replaces `to`; when the two completions have run in
      order, the last screen shown is the only child. */
  lemma {:induction false} ShowDuringCrossfadeRetargets(from: Screen, to: Screen, s: Screen)
    requires from.kind != to.kind && from.kind != s.kind
    ensures ChildrenAfterShow([from, to], s) == [from, s]
    ensures Without(Without([from, s], from), from) == [s]
  {
    assert from != s;
    assert [from, s] == [from] + [s];
    assert Without([s], from) == [s];
  }

  /** One step of the removal loop: detaching the first screen of `rest`
      from `[from] + rest`, when that screen occurs nowhere else. */
  lemma {:induction false} WithoutSecond(from: Screen, rest: seq<Screen>)
    requires rest != [] && from != rest[0] && rest[0] !in rest[1..]
    ensures Without([from] + rest, rest[0]) == [from] + rest[1..]
  {
    assert ([from] + rest)[1..] == rest;
    assert rest == [rest[0]] + rest[1..];
    assert Without(rest, rest[0]) == Without(rest[1..], rest[0]);
  }

  class AppViewController {
    var children: seq<Screen>
    /** Crossfades started and not yet completed, oldest first. */
    var pendingCompletions: seq<Crossfade>
    /** The modally presented screen, if any. */
    var presented: Option<Screen>
    /** The identity the next screen created gets. */
    var nextId: nat

    ghost predicate Valid()
      reads this
    {
      && Distinct(children)
      && (forall s :: s in children ==> s.id < nextId)
    }

    constructor ()
      ensures Valid()
      ensures children == [] && pendingCompletions == [] && presented == None && nextId == 0
    {
      children := [];
      pendingCompletions := [];
      presented := None;
      nextId := 0;
    }

    /** The current screen: the first child, or none when there is none. */
    function CurrentViewController(): (r: Option<Screen>)
      reads this
      ensures r == None <==> children == []
      ensures r != None ==> r.value == children[0]
    {
      if children == [] then None else Some(children[0])
    }

    /** Creates a screen of the given type, distinct from every screen so far. */
    method NewScreen(kind: ScreenKind) returns (s: Screen)
      requires Valid()
      modifies this`nextId
      ensures Valid()
      ensures s.kind == kind && s !in children && s.id == old(nextId)
      ensures nextId == old(nextId) + 1
    {
      s := Screen(kind, nextId);
      nextId := nextId + 1;
    }

    /** Shows a screen: attach it to an empty host, ignore it if it has the
        current screen's type, and crossfade to it otherwise. */
    method Show(newScreen: Screen)
      requires Valid() && newScreen !in children && newScreen.id < nextId
      modifies this`children, this`pendingCompletions
      ensures Valid()
      ensures children == ChildrenAfterShow(old(children), newScreen)
      ensures old(children) != [] && old(children)[0].kind != newScreen.kind
              ==> pendingCompletions == old(pendingCompletions) + [Crossfade(old(children)[0], newScreen)]
      ensures old(children) == [] || old(children)[0].kind == newScreen.kind
              ==> pendingCompletions == old(pendingCompletions)
    {
      var current := CurrentViewController();
      if current != None && current.value.kind != newScreen.kind {
        Transition(current.value, newScreen);
      } else if current == None {
        children := children + [newScreen];
      }
    }

    /** Begins a crossfade: detaches every child but `from`, attaches `to`
        and queues the completion. */
    method Transition(from: Screen, to: Screen)
      requires Valid() && children != [] && from == children[0]
      requires to !in children && to.id < nextId
      modifies this`children, this`pendingCompletions
      ensures Valid()
      ensures children == [from, to]
      ensures pendingCompletions == old(pendingCompletions) + [Crossfade(from, to)]
    {
      var snapshot := children;
      var i := 0;
      while i < |snapshot|
        invariant 0 <= i <= |snapshot|
        invariant i == 0 ==> children == snapshot
        invariant i > 0 ==> children == [from] + snapshot[i..]
        invariant pendingCompletions == old(pendingCompletions)
      {
        if snapshot[i] != from {
          assert snapshot[i] !in snapshot[i + 1..] by {
            forall k | i + 1 <= k < |snapshot| ensures snapshot[k] != snapshot[i] { }
          }
          assert snapshot[i..] == [snapshot[i]] + snapshot[i + 1..];
          WithoutSecond(from, snapshot[i..]);
          children := Without(children, snapshot[i]);
        }
        i := i + 1;
      }
      assert children == [from];
      children := children + [to];
      pendingCompletions := pendingCompletions + [Crossfade(from, to)];
    }

    /** The oldest pending crossfade finished animating: its old screen is
        detached. */
    method CompleteTransition()
      requires Valid()
      modifies this`children, this`pendingCompletions
      ensures Valid()
      ensures old(pendingCompletions) == [] ==> children == old(children) && pendingCompletions == []
      ensures old(pendingCompletions) != [] ==>
                children == Without(old(children), old(pendingCompletions)[0].from)
                && pendingCompletions == old(pendingCompletions)[1..]
      ensures old(pendingCompletions) != [] && old(children) == [old(pendingCompletions)[0].from, old(pendingCompletions)[0].to]
              && old(pendingCompletions)[0].from != old(pendingCompletions)[0].to
              ==> children == [old(pendingCompletions)[0].to]
    {
      if pendingCompletions != [] {
        var crossfade := pendingCompletions[0];
        assert [crossfade.from, crossfade.to] == [crossfade.from] + [crossfade.to];
        children := Without(children, crossfade.from);
        pendingCompletions := pendingCompletions[1..];
      }
    }

    /** Decides the next screen: the checkout screen when every required
        permission is granted, the permissions screen presented modally
        otherwise. The authorization screen's success callback calls it. */
    method UpdateScreen(location: Permissions.LocationStatus, microphone: Permissions.MicrophonePermission)
      requires Valid()
      modifies this`children, this`pendingCompletions, this`presented, this`nextId
      ensures Valid()
      ensures nextId == old(nextId) + 1
      ensures Permissions.AreRequiredPermissionsGranted(location, microphone) ==>
                children == ChildrenAfterShow(old(children), Screen(PayScreen, old(nextId)))
                && presented == old(presented)
      ensures Permissions.AreRequiredPermissionsGranted(location, microphone)
              && old(children) != [] && old(children)[0].kind != PayScreen ==>
                pendingCompletions == old(pendingCompletions) + [Crossfade(old(children)[0], Screen(PayScreen, old(nextId)))]
      ensures Permissions.AreRequiredPermissionsGranted(location, microphone)
              && (old(children) == [] || old(children)[0].kind == PayScreen) ==>
                pendingCompletions == old(pendingCompletions)
      ensures !Permissions.AreRequiredPermissionsGranted(location, microphone) ==>
                children == old(children) && pendingCompletions == old(pendingCompletions)
                && presented == Some(Screen(PermissionsScreen, old(nextId)))
    {
      if !Permissions.AreRequiredPermissionsGranted(location, microphone) {
        var permissions := NewScreen(PermissionsScreen);
        presented := Some(permissions);
      } else {
        var pay := NewScreen(PayScreen);
        Show(pay);
      }
    }

    /** The view loaded: show the authorization screen. */
    method ViewDidLoad()
      requires Valid()
      modifies this`children, this`pendingCompletions, this`nextId
      ensures Valid()
      ensures children == ChildrenAfterShow(old(children), Screen(AuthorizationScreen, old(nextId)))
      ensures old(children) == [] ==> children == [Screen(AuthorizationScreen, old(nextId))]
      ensures old(children) != [] && old(children)[0].kind != AuthorizationScreen ==>
                pendingCompletions == old(pendingCompletions)
                                      + [Crossfade(old(children)[0], Screen(AuthorizationScreen, old(nextId)))]
      ensures old(children) == [] || old(children)[0].kind == AuthorizationScreen ==>
                pendingCompletions == old(pendingCompletions)
      ensures nextId == old(nextId) + 1
      ensures presented == old(presented)
    {
      var authorization := NewScreen(AuthorizationScreen);
      Show(authorization);
    }

    /** The permissions screen reports every permission granted: dismiss it
        and decide the next screen. */
    method PermissionsDidObtainRequired(location: Permissions.LocationStatus, microphone: Permissions.MicrophonePermission)
      requires Valid()
      modifies this`children, this`pendingCompletions, this`presented, this`nextId
      ensures Valid()
      ensures nextId == old(nextId) + 1
      ensures Permissions.AreRequiredPermissionsGranted(location, microphone) ==>
                children == ChildrenAfterShow(old(children), Screen(PayScreen, old(nextId)))
                && presented == None
      ensures Permissions.AreRequiredPermissionsGranted(location, microphone)
              && old(children) != [] && old(children)[0].kind != PayScreen ==>
                pendingCompletions == old(pendingCompletions) + [Crossfade(old(children)[0], Screen(PayScreen, old(nextId)))]
      ensures Permissions.AreRequiredPermissionsGranted(location, microphone)
              && (old(children) == [] || old(children)[0].kind == PayScreen) ==>
                pendingCompletions == old(pendingCompletions)
      ensures !Permissions.AreRequiredPermissionsGranted(location, microphone) ==>
                children == old(children) && pendingCompletions == old(pendingCompletions)
                && presented == Some(Screen(PermissionsScreen, old(nextId)))
    {
      presented := None;
      UpdateScreen(location, microphone);
    }
  }

  /** Launch, authorization and every permission granted: after the crossfade
      completes, the checkout screen is the only child. */
  method LaunchToCheckout()
  {
    var host := new AppViewController();
    host.ViewDidLoad();
    assert host.children == [Screen(AuthorizationScreen, 0)];
    host.UpdateScreen(Permissions.AuthorizedWhenInUse, Permissions.Granted);
    assert host.children == [Screen(AuthorizationScreen, 0), Screen(PayScreen, 1)];
    host.CompleteTransition();
    assert host.children == [Screen(PayScreen, 1)];
  }

  /** Launch and authorization with the microphone not yet granted: the
      permissions screen is presented; once it reports every permission
      granted it is dismissed and the crossfade to checkout completes. */
  method LaunchThroughPermissions()
  {
    var host := new AppViewController();
    host.ViewDidLoad();
    host.UpdateScreen(Permissions.AuthorizedWhenInUse, Permissions.Undetermined);
    assert host.children == [Screen(AuthorizationScreen, 0)];
    assert host.presented == Some(Screen(PermissionsScreen, 1));
    host.PermissionsDidObtainRequired(Permissions.AuthorizedWhenInUse, Permissions.Granted);
    assert host.presented == None;
    host.CompleteTransition();
    assert host.children == [Screen(PayScreen, 2)];
  }
}
