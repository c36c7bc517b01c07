/**
 * The bottom navigation bar: which of the five tabs is highlighted for the
 * current pathname. The pathname is `None` while the router has none.
 */
module BottomNav {
  import opened Wrappers
  import opened Strings

  /** The hrefs of the five tabs: 홈, 의뢰, 채팅, 커뮤니티, 마이. */
  const NavHrefs: seq<string> := ["/", "/requests", "/chat", "/community", "/profile"]

  /** `pathname === href || (href !== "/" && pathname?.startsWith(href))`. */
  predicate IsActive(pathname: Option<string>, href: string)
  {
    pathname == Some(href) || (href != "/" && pathname.Some? && StartsWith(pathname.value, href))
  }

  /** A tab is active on its own page. */
  lemma ExactPathIsActive(href: string)
    ensures IsActive(Some(href), href)
  {
  }

  /** The home tab is active on "/" and nowhere else. */
  lemma HomeOnlyOnRoot(pathname: Option<string>)
    ensures IsActive(pathname, "/") <==> pathname == Some("/")
  {
  }

  /** Any other tab stays active on the pages below it, e.g. "/requests/1" for "/requests". */
  lemma NestedPathIsActive(path: string, href: string)
    requires href != "/" && StartsWith(path, href)
    ensures IsActive(Some(path), href)
  {
  }

  /** Without a pathname no tab is active. */
  lemma NoPathNoTab(href: string)
    ensures !IsActive(None, href)
  {
  }

  /** Two prefixes of one text are prefixes of each other. */
  lemma PrefixesComparable(s: string, a: string, b: string)
    requires StartsWith(s, a) && StartsWith(s, b) && |a| <= |b|
    ensures StartsWith(b, a)
  {
    assert b[..|a|] == s[..|b|][..|a|] == s[..|a|];
  }

  /** No tab's href starts with another tab's href, except that every href starts with "/". */
  lemma HrefsUnrelated(a: string, b: string)
    requires a in NavHrefs && b in NavHrefs && a != "/" && StartsWith(b, a)
    ensures a == b
  {
    assert |a| >= 5 && a[0] == '/';
    assert b[..|a|] == a;
    assert b[1] == a[1];
    if a[1] == 'c' {
      assert b[2] == a[2];
    }
  }

  /** The only tab whose href is a single character is the home tab. */
  lemma ShortHrefIsHome(h: string)
    requires h in NavHrefs && |h| <= 1
    ensures h == "/"
  {
  }

  /** For any pathname at most one tab is highlighted. */
  lemma AtMostOneActive(pathname: Option<string>, h1: string, h2: string)
    requires h1 in NavHrefs && h2 in NavHrefs
    requires IsActive(pathname, h1) && IsActive(pathname, h2)
    ensures h1 == h2
  {
    var path := pathname.value;
    if h1 == "/" || h2 == "/" {
      // the home tab pins the pathname to "/", which only the one-character href starts
      assert path == "/";
      var other := if h1 == "/" then h2 else h1;
      assert path == other || StartsWith(path, other);
      ShortHrefIsHome(other);
    } else {
      assert StartsWith(path, h1) && StartsWith(path, h2);
      if |h1| <= |h2| {
        PrefixesComparable(path, h1, h2);
        HrefsUnrelated(h1, h2);
      } else {
        PrefixesComparable(path, h2, h1);
        HrefsUnrelated(h2, h1);
      }
    }
  }
}
