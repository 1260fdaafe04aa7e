/** The highlighting of navigation links in pdfier/src/components/common/sidebar.tsx. */
module Sidebar {

  datatype NavItem = NavItem(name: string, href: string)

  /** The main navigation, in display order. */
  const MainItems: seq<NavItem> := [
    NavItem("Dashboard", "/dashboard"),
    NavItem("Upload PDF", "/upload"),
    NavItem("All PDF Tools", "/tools"),
    NavItem("My Documents", "/documents"),
    NavItem("Merge PDF", "/tools/merge"),
    NavItem("Compress PDF", "/tools/compress"),
    NavItem("Protect PDF", "/tools/protect"),
    NavItem("OCR & AI", "/tools/ocr-ai"),
    NavItem("Chat with PDF (AI)", "/chat-ai")
  ]

  /** The navigation at the bottom of the sidebar. */
  const BottomItems: seq<NavItem> := [
    NavItem("Settings", "/settings"),
    NavItem("Help & Support", "/help")
  ]

  /** A main item is highlighted on its own path, and, unless its href is the root,
      on every path that starts with its href as a plain string
      (`pathname.startsWith(item.href)`), whether or not a `/` follows. */
  function MainItemActive(pathname: string, href: string): (active: bool)
    ensures href == "/" ==> (active <==> pathname == "/")
    ensures href != "/" ==> (active <==> href <= pathname)
  {
    pathname == href || (href != "/" && href <= pathname)
  }

  /** A bottom item is highlighted on its own path only. */
  function BottomItemActive(pathname: string, href: string): (active: bool)
    ensures active <==> pathname == href
  {
    pathname == href
  }

  /** The main items highlighted on a path, in display order. */
  function ActiveMainItems(items: seq<NavItem>, pathname: string): (active: seq<NavItem>)
    ensures forall it :: it in active <==> it in items && MainItemActive(pathname, it.href)
  {
    if items == [] then []
    else (if MainItemActive(pathname, items[0].href) then [items[0]] else []) + ActiveMainItems(items[1..], pathname)
  }

  /** The match is not segment-aware: `/tools` is highlighted on `/toolsx`. */
  lemma PrefixMatchIgnoresSegments()
    ensures MainItemActive("/toolsx", "/tools")
  {
    assert "/tools" == "/toolsx"[..6];
  }

  /** A main item is highlighted on every path below it. */
  lemma ActiveBelowHref(href: string, rest: string)
    requires href != "/"
    ensures MainItemActive(href + "/" + rest, href)
  {
    assert href == (href + "/" + rest)[..|href|];
  }

  /** Bottom items do not match below their href: no bottom item is highlighted
      on a longer path that starts with its href (Settings on `/settings/x`). */
  lemma BottomIgnoresSubpaths(href: string, rest: string)
    requires rest != ""
    ensures !BottomItemActive(href + rest, href)
  {
    assert |href + rest| != |href|;
  }

  /** Several main items can be highlighted together: on the merge tool's page
      both the tools overview and the merge tool are. */
  lemma MergePageHighlightsTwoItems()
    ensures MainItems[2].href == "/tools" && MainItems[4].href == "/tools/merge"
    ensures MainItemActive("/tools/merge", MainItems[2].href) && MainItemActive("/tools/merge", MainItems[4].href)
  {
    assert "/tools" == "/tools/merge"[..6];
  }
}
