/** The keyboard-shortcut hook: a key event is checked against every
    registered shortcut in list order, and each shortcut that matches
    suppresses the browser's default and fires its action. */
module KeyboardShortcuts {
  import opened Base
  import opened Text

  /** A registered shortcut. An absent modifier flag is `false`. The action
      is identified by the shortcut's position in the list. */
  datatype Shortcut = Shortcut(key: string, ctrl: bool, shift: bool, alt: bool, description: string)

  /** The parts of a key event the hook reads. */
  datatype KeyEvent = KeyEvent(key: string, ctrlKey: bool, metaKey: bool, shiftKey: bool, altKey: bool)

  /** A shortcut with the Ctrl flag accepts Ctrl or Meta; one without it
      rejects both. */
  predicate CtrlMatch(s: Shortcut, e: KeyEvent)
  {
    if s.ctrl then e.ctrlKey || e.metaKey else !e.ctrlKey && !e.metaKey
  }

  predicate Matches(s: Shortcut, e: KeyEvent)
  {
    && CtrlMatch(s, e)
    && (if s.shift then e.shiftKey else !e.shiftKey)
    && (if s.alt then e.altKey else !e.altKey)
    && Lower(e.key) == Lower(s.key)
  }

  /** Ctrl and Meta are interchangeable for a Ctrl shortcut, and either one
      held rules out every shortcut without the flag. */
  lemma CtrlOrMeta(s: Shortcut, e: KeyEvent)
    ensures !s.ctrl && (e.ctrlKey || e.metaKey) ==> !Matches(s, e)
    ensures s.ctrl && !e.ctrlKey && !e.metaKey ==> !Matches(s, e)
    ensures s.ctrl ==> Matches(s, e.(ctrlKey := true, metaKey := false)) == Matches(s, e.(ctrlKey := false, metaKey := true))
  {
  }

  /** Shift and Alt must agree with the shortcut exactly. */
  lemma ShiftAltExact(s: Shortcut, e: KeyEvent)
    requires Matches(s, e)
    ensures e.shiftKey == s.shift && e.altKey == s.alt
  {
  }

  /** Keys are compared without regard to ASCII letter case. */
  lemma CaseInsensitive(s: Shortcut, e: KeyEvent)
    ensures Matches(s, e) == Matches(s, e.(key := Lower(e.key)))
    ensures Matches(s, e) == Matches(s.(key := Lower(s.key)), e)
  {
    LowerIdempotent(e.key);
    LowerIdempotent(s.key);
  }

  /** A shortcut registered as "k" fires on "K" with the same modifiers. */
  lemma CapitalKey()
    ensures Matches(Shortcut("k", true, false, false, ""), KeyEvent("K", false, true, false, false))
    ensures !Matches(Shortcut("k", false, false, false, ""), KeyEvent("k", true, false, false, false))
  {
    assert Lower("K") == "k";
    assert Lower("k") == "k";
  }

  /** The key-down handler. `fired` lists the positions of the shortcuts whose
      actions run, in the order they run; `prevented` counts the calls that
      suppress the default. */
  method HandleKeyDown(shortcuts: seq<Shortcut>, event: KeyEvent) returns (fired: seq<nat>, prevented: nat)
    ensures StrictlyIncreasing(fired)
    ensures forall k: nat :: k in fired <==> k < |shortcuts| && Matches(shortcuts[k], event)
    ensures prevented == |fired|
  {
    fired := [];
    prevented := 0;
    var i := 0;
    while i < |shortcuts|
      invariant 0 <= i <= |shortcuts|
      invariant StrictlyIncreasing(fired)
      invariant forall j :: 0 <= j < |fired| ==> fired[j] < i
      invariant forall k: nat :: k in fired <==> k < i && Matches(shortcuts[k], event)
      invariant prevented == |fired|
    {
      if Matches(shortcuts[i], event) {
        prevented := prevented + 1;
        fired := fired + [i];
      }
      i := i + 1;
    }
  }

  lemma HeadIn(s: seq<nat>)
    ensures s != [] ==> s[0] in s
  {
  }

  /** Two increasing lists with the same elements are equal: the handler's
      contract fixes the firing order completely. */
  lemma {:induction false} IncreasingUnique(a: seq<nat>, b: seq<nat>)
    requires StrictlyIncreasing(a) && StrictlyIncreasing(b)
    requires forall k :: k in a <==> k in b
    ensures a == b
  {
    if a == [] {
      HeadIn(b);
    } else {
      assert a[0] in b;
      assert a[0] == b[0] by {
        assert b[0] in a;
        var j :| 0 <= j < |b| && b[j] == a[0];
        assert b[0] <= b[j];
        var m :| 0 <= m < |a| && a[m] == b[0];
        assert a[0] <= a[m];
      }
      forall k ensures k in a[1..] <==> k in b[1..] {
        if k in a[1..] {
          var j :| 1 <= j < |a| && a[j] == k;
          assert a[0] < k && k in b;
          var m :| 0 <= m < |b| && b[m] == k;
          assert m != 0 && b[1..][m - 1] == k;
        }
        if k in b[1..] {
          var j :| 1 <= j < |b| && b[j] == k;
          assert b[0] < k && k in a;
          var m :| 0 <= m < |a| && a[m] == k;
          assert m != 0 && a[1..][m - 1] == k;
        }
      }
      IncreasingUnique(a[1..], b[1..]);
      assert a == [a[0]] + a[1..];
      assert b == [b[0]] + b[1..];
    }
  }
}
