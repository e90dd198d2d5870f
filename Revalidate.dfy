/** `preventRevalidateOnListingPage`, the `shouldRevalidate` of the listing
    route: whether the current pathname is one of a fixed list of paths. */
module Revalidate {
  import opened Common

  /** The module-level `paths` list; it is declared empty and never filled. */
  const Paths: seq<string> := []

  datatype Url = Url(pathname: string, search: string)

  /** The arguments the framework passes to `shouldRevalidate`. */
  datatype RevalidateArgs = RevalidateArgs(currentUrl: Url, nextUrl: Url, formMethod: Option<string>,
                                           defaultShouldRevalidate: bool)

  /** `paths.find(item => item === pathname)`: the first equal entry, if any. */
  function Find(paths: seq<string>, pathname: string): (r: Option<string>)
    ensures r.Some? <==> pathname in paths
    ensures r.Some? ==> r.value == pathname
  {
    if paths == [] then None
    else if paths[0] == pathname then Some(paths[0])
    else Find(paths[1..], pathname)
  }

  /** The test against a given list. `find` returns the entry itself and the
      code tests its truthiness, so an empty pathname would not count even
      if it were listed. */
  function ShouldRevalidate(paths: seq<string>, args: RevalidateArgs): (r: bool)
    ensures r <==> args.currentUrl.pathname in paths && args.currentUrl.pathname != ""
  {
    var found := Find(paths, args.currentUrl.pathname);
    if found.Some? && found.value != "" then true else false
  }

  /** `preventRevalidateOnListingPage` itself, over the declared list. */
  function PreventRevalidateOnListingPage(args: RevalidateArgs): (r: bool)
    ensures !r
  {
    ShouldRevalidate(Paths, args)
  }

  /** Matching is exact: a listed path does not match its extensions. */
  lemma NoPrefixMatch(args: RevalidateArgs, listed: string, more: string)
    requires more != [] && listed + more == args.currentUrl.pathname
    ensures !ShouldRevalidate([listed], args)
  {
    assert |args.currentUrl.pathname| > |listed|;
  }

  /** Only the current pathname is consulted. */
  lemma OnlyPathnameMatters(paths: seq<string>, a: RevalidateArgs, b: RevalidateArgs)
    requires a.currentUrl.pathname == b.currentUrl.pathname
    ensures ShouldRevalidate(paths, a) == ShouldRevalidate(paths, b)
  {
  }
}
