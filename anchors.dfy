/**
 The menu links of the navigation bar: four fixed labels, each rendered as an
 in-page anchor whose href is "#" followed by the label in lower case.
 */
module NavAnchors {

  /** The labels of the menu, in the order they are rendered. */
  const NavItems: seq<string> := ["About", "Features", "Story", "Contact"]

  predicate IsAsciiUpper(c: char) {
    'A' <= c <= 'Z'
  }

  /** Lower-cases one character: capital ASCII letters become their small
      letter, every other character is kept. */
  function LowerChar(c: char): (d: char)
    ensures !IsAsciiUpper(d)
    ensures !IsAsciiUpper(c) ==> d == c
    ensures IsAsciiUpper(c) ==> 'a' <= d <= 'z' && d as int - 'a' as int == c as int - 'A' as int
  {
    if IsAsciiUpper(c) then (c as int - 'A' as int + 'a' as int) as char else c
  }

  /** `String.prototype.toLowerCase`, restricted to ASCII capitals. */
  function ToLowerCase(s: string): (r: string)
    ensures |r| == |s|
    ensures forall i :: 0 <= i < |s| ==> r[i] == LowerChar(s[i])
  {
    if s == [] then [] else [LowerChar(s[0])] + ToLowerCase(s[1..])
  }

  /** The href of the menu link for one item. */
  function Href(item: string): (h: string)
    ensures |h| == |item| + 1 && h[0] == '#'
    ensures forall i :: 0 <= i < |item| ==> h[i + 1] == LowerChar(item[i])
    ensures forall i :: 1 <= i < |h| ==> !IsAsciiUpper(h[i])
  {
    "#" + ToLowerCase(item)
  }

  /** `navItems.map(item => "#" + item.toLowerCase())`. */
  function Hrefs(items: seq<string>): (r: seq<string>)
    ensures |r| == |items|
    ensures forall i :: 0 <= i < |items| ==> r[i] == Href(items[i])
  {
    if items == [] then [] else [Href(items[0])] + Hrefs(items[1..])
  }

  /** A label's href, checked character by character. */
  lemma HrefOf(item: string, href: string)
    requires |href| == |item| + 1 && href[0] == '#'
    requires forall i :: 0 <= i < |item| ==> LowerChar(item[i]) == href[i + 1]
    ensures Href(item) == href
  {
  }

  lemma HrefAbout()
    ensures Href("About") == "#about"
  {
    HrefOf("About", "#about");
  }

  lemma HrefFeatures()
    ensures Href("Features") == "#features"
  {
    HrefOf("Features", "#features");
  }

  lemma HrefStory()
    ensures Href("Story") == "#story"
  {
    HrefOf("Story", "#story");
  }

  lemma HrefContact()
    ensures Href("Contact") == "#contact"
  {
    HrefOf("Contact", "#contact");
  }

  /** The rendered anchors are exactly these four, in the order of the labels. */
  lemma NavHrefs()
    ensures Hrefs(NavItems) == ["#about", "#features", "#story", "#contact"]
  {
    HrefAbout();
    HrefFeatures();
    HrefStory();
    HrefContact();
    HrefsOfFour("About", "Features", "Story", "Contact");
  }

  lemma HrefsOfFour(a: string, b: string, c: string, d: string)
    ensures Hrefs([a, b, c, d]) == [Href(a), Href(b), Href(c), Href(d)]
  {
  }

  /** No two menu links point at the same anchor. */
  lemma NavHrefsDistinct()
    ensures forall i, j :: 0 <= i < j < |NavItems| ==> Hrefs(NavItems)[i] != Hrefs(NavItems)[j]
  {
    NavHrefs();
  }
}
