/** The sidebar's navigation list: every button whose service requirement the
    current location meets, with spacers collapsed so that the list never
    starts or ends with a spacer and never shows two in a row. */
module NavFilter {
  import opened Common

  /** A button of the full navigation list. An empty text marks a spacer; a
      button without requirement is always shown, one with a list of services
      is shown when the location offers any of them. */
  datatype NavButton = NavButton(text: string, viewId: Option<string>, required: Option<seq<string>>)

  /** A shown entry: its text and the view it opens (the callback itself is a
      GUI object and is identified here by the view). */
  datatype Entry = Entry(text: string, viewId: Option<string>)

  predicate IsSpacer(e: Entry)
  {
    e.text == ""
  }

  function EntryOf(b: NavButton): Entry
  {
    Entry(b.text, b.viewId)
  }

  const Spacer := NavButton("", None, None)

  /** The sidebar's full list in display order. */
  const AllNavButtons: seq<NavButton> := [
    NavButton("◈ STATUS", Some("status"), None),
    NavButton("◈ TRAVEL", Some("travel"), None),
    NavButton("◈ MARKET", Some("market"), Some(["market", "black_market"])),
    NavButton("◈ CONTRACTS", Some("contracts"), Some(["contracts"])),
    Spacer,
    NavButton("◈ VESSEL", Some("vessel"), None),
    NavButton("◈ SHIPYARD", Some("shipyard"), Some(["shipyard"])),
    NavButton("◈ MODULES", Some("modules"), Some(["market", "black_market"])),
    NavButton("◈ COMPONENTS", Some("components"), Some(["market", "black_market"])),
    Spacer,
    NavButton("◈ MANUFACTURE", Some("manufacture"), Some(["manufacturing"])),
    NavButton("◈ RECYCLE", Some("recycle"), Some(["manufacturing"])),
    NavButton("◈ REFINE", Some("refine"), Some(["refinery"])),
    NavButton("◈ STORAGE", Some("storage"), None),
    Spacer,
    NavButton("◈ SKILLS", Some("skills"), None),
    Spacer,
    NavButton("◆ SAVE GAME", Some("save"), None)
  ]

  /** The inclusion rule for a non-spacer button. */
  predicate Wanted(b: NavButton, services: seq<string>)
  {
    match b.required
    case None => true
    case Some(req) => exists s :: s in req && s in services
  }

  /** One step of the pass over the full list: a spacer is appended only
      after a shown button (never first, never after another spacer); any
      other button is appended when it passes the service test. */
  function Step(acc: seq<Entry>, b: NavButton, services: seq<string>): seq<Entry>
  {
    var e := EntryOf(b);
    if IsSpacer(e) then
      if acc != [] && !IsSpacer(acc[|acc| - 1]) then acc + [e] else acc
    else if Wanted(b, services) then acc + [e]
    else acc
  }

  /** The list built by the pass over the first `n` buttons. */
  function Pass(buttons: seq<NavButton>, n: nat, services: seq<string>): seq<Entry>
    requires n <= |buttons|
    decreases n
  {
    if n == 0 then [] else Step(Pass(buttons, n - 1, services), buttons[n - 1], services)
  }

  /** The pass's trailing spacers removed. */
  function DropTrailing(s: seq<Entry>): seq<Entry>
  {
    if s != [] && IsSpacer(s[|s| - 1]) then DropTrailing(s[..|s| - 1]) else s
  }

  /** The navigation list for a location offering `services`. */
  function Filtered(buttons: seq<NavButton>, services: seq<string>): seq<Entry>
  {
    DropTrailing(Pass(buttons, |buttons|, services))
  }

  /** get_filtered_nav_buttons: one pass with a `prevWasSpacer` flag, then the
      trailing spacers popped. */
  method GetFilteredNavButtons(buttons: seq<NavButton>, services: seq<string>) returns (filtered: seq<Entry>)
    ensures filtered == Filtered(buttons, services)
  {
    filtered := [];
    var prevWasSpacer := false;
    for i := 0 to |buttons|
      invariant filtered == Pass(buttons, i, services)
      invariant prevWasSpacer <==> filtered != [] && IsSpacer(filtered[|filtered| - 1])
    {
      var b := buttons[i];
      if b.text == "" {
        if !prevWasSpacer && filtered != [] {
          filtered := filtered + [EntryOf(b)];
          prevWasSpacer := true;
        }
      } else if b.required.None? || exists s :: s in b.required.value && s in services {
        filtered := filtered + [EntryOf(b)];
        prevWasSpacer := false;
      }
    }
    while filtered != [] && filtered[|filtered| - 1].text == ""
      invariant DropTrailing(filtered) == Filtered(buttons, services)
      decreases |filtered|
    {
      filtered := filtered[..|filtered| - 1];
    }
  }

  // ----- properties of the list -----

  /** The non-spacer entries of a list, in order. */
  function NonSpacers(s: seq<Entry>): (r: seq<Entry>)
    ensures |r| <= |s|
  {
    if s == [] then []
    else if IsSpacer(s[|s| - 1]) then NonSpacers(s[..|s| - 1])
    else NonSpacers(s[..|s| - 1]) + [s[|s| - 1]]
  }

  /** The entries of the non-spacer buttons passing the service test, in the
      order of the full list. */
  function Kept(buttons: seq<NavButton>, services: seq<string>): seq<Entry>
  {
    if buttons == [] then []
    else
      var b := buttons[|buttons| - 1];
      var rest := Kept(buttons[..|buttons| - 1], services);
      if !IsSpacer(EntryOf(b)) && Wanted(b, services) then rest + [EntryOf(b)] else rest
  }

  predicate NoLeadingSpacer(s: seq<Entry>)
  {
    s != [] ==> !IsSpacer(s[0])
  }

  predicate NoAdjacentSpacers(s: seq<Entry>)
  {
    forall i :: 0 <= i < |s| - 1 ==> !(IsSpacer(s[i]) && IsSpacer(s[i + 1]))
  }

  predicate NoTrailingSpacer(s: seq<Entry>)
  {
    s != [] ==> !IsSpacer(s[|s| - 1])
  }

  /** Appending one entry adds it to the non-spacers unless it is a spacer. */
  lemma NonSpacersSnoc(s: seq<Entry>, e: Entry)
    ensures NonSpacers(s + [e]) == if IsSpacer(e) then NonSpacers(s) else NonSpacers(s) + [e]
  {
    assert (s + [e])[..|s|] == s;
  }

  lemma {:induction false} PassNonSpacers(buttons: seq<NavButton>, n: nat, services: seq<string>)
    requires n <= |buttons|
    ensures NonSpacers(Pass(buttons, n, services)) == Kept(buttons[..n], services)
    decreases n
  {
    if n > 0 {
      PassNonSpacers(buttons, n - 1, services);
      NonSpacersSnoc(Pass(buttons, n - 1, services), EntryOf(buttons[n - 1]));
      assert buttons[..n][..n - 1] == buttons[..n - 1];
    }
  }

  lemma {:induction false} PassSpacing(buttons: seq<NavButton>, n: nat, services: seq<string>)
    requires n <= |buttons|
    ensures NoLeadingSpacer(Pass(buttons, n, services)) && NoAdjacentSpacers(Pass(buttons, n, services))
    decreases n
  {
    if n > 0 {
      PassSpacing(buttons, n - 1, services);
    }
  }

  lemma {:induction false} PassFrom(buttons: seq<NavButton>, n: nat, services: seq<string>)
    requires n <= |buttons|
    ensures forall e :: e in Pass(buttons, n, services) ==> exists j :: 0 <= j < n && EntryOf(buttons[j]) == e
    decreases n
  {
    if n > 0 {
      PassFrom(buttons, n - 1, services);
    }
  }

  lemma {:induction false} DropTrailingFacts(s: seq<Entry>)
    requires NoLeadingSpacer(s) && NoAdjacentSpacers(s)
    ensures var d := DropTrailing(s);
      && NonSpacers(d) == NonSpacers(s)
      && NoLeadingSpacer(d) && NoAdjacentSpacers(d) && NoTrailingSpacer(d)
      && d <= s
    decreases |s|
  {
    if s != [] && IsSpacer(s[|s| - 1]) {
      var init := s[..|s| - 1];
      DropTrailingFacts(init);
    }
  }

  /** The shown buttons are exactly those passing the service test, in the
      order of the full list (spacers set aside). */
  lemma FilteredKeepsButtons(buttons: seq<NavButton>, services: seq<string>)
    ensures NonSpacers(Filtered(buttons, services)) == Kept(buttons, services)
  {
    PassNonSpacers(buttons, |buttons|, services);
    PassSpacing(buttons, |buttons|, services);
    DropTrailingFacts(Pass(buttons, |buttons|, services));
    assert buttons[..|buttons|] == buttons;
  }

  /** The list never starts or ends with a spacer, never shows two spacers in
      a row, and holds only entries of the full list. */
  lemma FilteredSpacers(buttons: seq<NavButton>, services: seq<string>)
    ensures var f := Filtered(buttons, services);
      NoLeadingSpacer(f) && NoAdjacentSpacers(f) && NoTrailingSpacer(f)
    ensures forall e :: e in Filtered(buttons, services) ==>
      exists j :: 0 <= j < |buttons| && EntryOf(buttons[j]) == e
  {
    var p := Pass(buttons, |buttons|, services);
    PassSpacing(buttons, |buttons|, services);
    DropTrailingFacts(p);
    PassFrom(buttons, |buttons|, services);
    forall e | e in Filtered(buttons, services)
      ensures e in p
    {
      assert DropTrailing(p) <= p;
    }
  }

  /** Inclusion rule, both ways: an entry is a shown button exactly when some
      non-spacer button with that entry passes the service test. */
  lemma {:induction false} KeptMembership(buttons: seq<NavButton>, services: seq<string>, e: Entry)
    ensures e in Kept(buttons, services) <==>
      exists b :: b in buttons && !IsSpacer(EntryOf(b)) && Wanted(b, services) && EntryOf(b) == e
    decreases |buttons|
  {
    if buttons != [] {
      var init := buttons[..|buttons| - 1];
      var last := buttons[|buttons| - 1];
      KeptMembership(init, services, e);
      assert buttons == init + [last];
      if exists b :: b in buttons && !IsSpacer(EntryOf(b)) && Wanted(b, services) && EntryOf(b) == e {
        var b :| b in buttons && !IsSpacer(EntryOf(b)) && Wanted(b, services) && EntryOf(b) == e;
        if b != last {
          assert b in init;
        }
      }
    }
  }

  /** The pass over fewer buttons is a prefix of the pass over more. */
  lemma {:induction false} PassPrefix(buttons: seq<NavButton>, n: nat, m: nat, services: seq<string>)
    requires n <= m <= |buttons|
    ensures Pass(buttons, n, services) <= Pass(buttons, m, services)
    decreases m
  {
    if n < m {
      PassPrefix(buttons, n, m - 1, services);
    }
  }

  /** For the sidebar's own list: status and travel open it and save game
      closes it, whatever the location offers. */
  lemma SidebarEnds(services: seq<string>)
    ensures var f := Filtered(AllNavButtons, services);
      |f| >= 2 && f[0] == Entry("◈ STATUS", Some("status")) && f[1] == Entry("◈ TRAVEL", Some("travel"))
      && f[|f| - 1] == Entry("◆ SAVE GAME", Some("save"))
  {
    var n := |AllNavButtons|;
    assert Pass(AllNavButtons, 1, services) == [EntryOf(AllNavButtons[0])];
    assert Pass(AllNavButtons, 2, services) == [EntryOf(AllNavButtons[0]), EntryOf(AllNavButtons[1])];
    PassPrefix(AllNavButtons, 2, n, services);
    var p := Pass(AllNavButtons, n, services);
    assert p == Pass(AllNavButtons, n - 1, services) + [EntryOf(AllNavButtons[n - 1])];
    assert DropTrailing(p) == p;
  }
}
