/** The navigation bar: the seven entries, the desktop label (the entry's
    name with `/^[^\s]+ /` replaced by nothing), the active-link test and the
    mobile menu's open flag. */
module Navbar {
  import opened Text

  datatype Entry = Entry(name: string, href: string, icon: string)

  const Navigation: seq<Entry> := [
    Entry("\U{1F3E0} Inicio", "/", "\U{1F3E0}"),
    Entry("\U{26A1} CFE", "/cfe", "\U{26A1}"),
    Entry("\U{1F393} Certificados", "/certificates", "\U{1F393}"),
    Entry("\U{1F4C4} Constancia Fiscal", "/fiscal", "\U{1F4C4}"),
    Entry("\U{1F9FE} CFDI", "/cfdi", "\U{1F9FE}"),
    Entry("\U{1F9F0} Tr\U{E1}mites", "/tramites", "\U{1F9F0}"),
    Entry("\U{1F4DE} Contacto", "/contact", "\U{1F4DE}")
  ]

  /** The prefix `s[..m]` is a match of `^[^\s]+ `: at least one
      non-whitespace character followed by one space. */
  predicate MatchesLeadingToken(s: string, m: nat)
  {
    && 2 <= m <= |s|
    && s[m - 1] == ' '
    && forall i :: 0 <= i < m - 1 ==> !IsJsSpace(s[i])
  }

  /** The length of the run of non-whitespace characters `s` starts with. */
  function LeadingRun(s: string): (n: nat)
    ensures n <= |s|
    ensures forall i :: 0 <= i < n ==> !IsJsSpace(s[i])
    ensures n < |s| ==> IsJsSpace(s[n])
  {
    if s == [] || IsJsSpace(s[0]) then 0 else 1 + LeadingRun(s[1..])
  }

  /** The pattern can match at most one prefix: its length is the leading
      run plus the space. */
  lemma MatchIsLeadingRun(s: string, m: nat)
    requires MatchesLeadingToken(s, m)
    ensures m == LeadingRun(s) + 1
  {
  }

  /** `name.replace(/^[^\s]+ /, '')`. When the pattern matches a prefix, the
      label is the rest of the name; when it matches nothing, the label is
      the name itself. Either way it is a suffix of the name, strictly
      shorter exactly when the pattern matched. */
  function DesktopLabel(name: string): (shown: string)
    ensures |shown| <= |name| && shown == name[|name| - |shown|..]
    ensures forall m: nat :: MatchesLeadingToken(name, m) ==> shown == name[m..]
    ensures (forall m: nat :: !MatchesLeadingToken(name, m)) ==> shown == name
    ensures |shown| < |name| <==> exists m: nat :: MatchesLeadingToken(name, m)
  {
    var n := LeadingRun(name);
    if 1 <= n < |name| && name[n] == ' ' then
      assert MatchesLeadingToken(name, n + 1);
      LeadingMatchUnique(name);
      name[n + 1..]
    else
      LeadingMatchUnique(name);
      name
  }

  /** Every match of the pattern is the one built from the leading run. */
  lemma LeadingMatchUnique(s: string)
    ensures forall m: nat :: MatchesLeadingToken(s, m) ==>
      var n := LeadingRun(s); m == n + 1 && 1 <= n < |s| && s[n] == ' '
  {
    forall m | MatchesLeadingToken(s, m)
      ensures var n := LeadingRun(s); m == n + 1 && 1 <= n < |s| && s[n] == ' '
    {
      MatchIsLeadingRun(s, m);
    }
  }

  /** An entry whose name is its one-character icon, a space and a text:
      the desktop label is that text. */
  lemma IconLabel(e: Entry)
    requires |e.icon| == 1 && !IsJsSpace(e.icon[0])
    requires |e.name| >= 2 && e.name[..2] == e.icon + " "
    ensures e.name == e.icon + " " + DesktopLabel(e.name)
  {
    assert MatchesLeadingToken(e.name, 2);
    assert e.name == e.name[..2] + e.name[2..];
  }

  /** Every entry's desktop label is its name without the leading icon and
      the space after it. */
  lemma LabelsFollowIcons()
    ensures forall i :: 0 <= i < |Navigation| ==>
      Navigation[i].name == Navigation[i].icon + " " + DesktopLabel(Navigation[i].name)
  {
    forall i | 0 <= i < |Navigation|
      ensures Navigation[i].name == Navigation[i].icon + " " + DesktopLabel(Navigation[i].name)
    {
      IconLabel(Navigation[i]);
    }
  }

  /** A link is highlighted when the current path is its target. */
  predicate IsActive(pathname: string, e: Entry)
  {
    pathname == e.href
  }

  /** The entries' targets are distinct, so at most one link is highlighted. */
  lemma AtMostOneActive(pathname: string)
    ensures forall i, j :: 0 <= i < j < |Navigation| ==>
      !(IsActive(pathname, Navigation[i]) && IsActive(pathname, Navigation[j]))
  {
    forall i, j | 0 <= i < j < |Navigation|
      ensures Navigation[i].href != Navigation[j].href
    {
    }
  }

  /** What can happen to the mobile menu. */
  datatype MenuEvent = ToggleMenu | FollowMobileLink | MobileShare

  /** The mobile menu's `isOpen`: the menu button flips it, following a link
      or sharing from the open menu closes it. */
  function MenuStep(isOpen: bool, e: MenuEvent): (r: bool)
    ensures e == ToggleMenu ==> r != isOpen
    ensures e != ToggleMenu ==> !r
  {
    match e
    case ToggleMenu => !isOpen
    case FollowMobileLink => false
    case MobileShare => false
  }

  /** Pressing the menu button twice leaves the menu as it was. */
  lemma ToggleTwice(isOpen: bool)
    ensures MenuStep(MenuStep(isOpen, ToggleMenu), ToggleMenu) == isOpen
  {
  }
}
