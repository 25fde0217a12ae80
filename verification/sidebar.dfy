/** The sidebar's route highlighting. */
module Sidebar {
  import opened Js

  /** A menu entry for `path` is highlighted on the path itself and on every route below it. */
  predicate IsActive(pathname: string, path: string) {
    pathname == path || StartsWith(pathname, path + "/")
  }

  /** Active exactly on `path` itself or on `path + "/" + rest` for some `rest`. */
  lemma IsActiveIff(pathname: string, path: string)
    ensures IsActive(pathname, path) <==>
      pathname == path || (|pathname| > |path| && pathname == path + "/" + pathname[|path| + 1..])
  {
    if |pathname| > |path| && pathname == path + "/" + pathname[|path| + 1..] {
      assert pathname[..|path + "/"|] == path + "/";
    }
    if StartsWith(pathname, path + "/") {
      assert pathname == pathname[..|path| + 1] + pathname[|path| + 1..];
    }
  }

  /** Every path is active on itself. */
  lemma ActiveOnItself(path: string)
    ensures IsActive(path, path)
  {
  }

  /** Every child route `path + "/" + rest` is active. */
  lemma ActiveOnChild(path: string, rest: string)
    ensures IsActive(path + "/" + rest, path)
  {
    assert (path + "/" + rest)[..|path + "/"|] == path + "/";
  }

  /** A pathname shorter than `path` is never active. */
  lemma InactiveWhenShorter(pathname: string, path: string)
    requires |pathname| < |path|
    ensures !IsActive(pathname, path)
  {
  }

  /**
   * A pathname that extends `path` without a '/' right after it (such as
   * "/invoicesX" for "/invoices") is not active.
   */
  lemma InactiveWithoutBoundary(pathname: string, path: string)
    requires |pathname| > |path| && pathname[..|path|] == path
    requires pathname[|path|] != '/'
    ensures !IsActive(pathname, path)
  {
  }

  /** A pathname that does not start with `path` is not active. */
  lemma InactiveOffPrefix(pathname: string, path: string)
    requires !StartsWith(pathname, path)
    ensures !IsActive(pathname, path)
  {
  }
}
