/** The local-filesystem disk (disks/local.go): location checks and the paths and URLs
    built from them. Creating directories and copying file contents are not modelled. */
module LocalDisk {
  import opened Wrappers
  import opened Strings
  import opened Errors

  /** `Local`; `baseUrl` is a field of the Go struct that `NewLocal` never fills. */
  datatype Local = Local(rootdir: string, baseUrl: string, permissions: int)

  /** `NewLocal`: 493 for a public disk, 448 for a private one; the base url argument is
      dropped. */
  function NewLocal(rootDirectory: string, baseUrl: string, public: bool): (l: Local)
    ensures l.rootdir == rootDirectory && l.baseUrl == ""
    ensures l.permissions == if public then 493 else 448
  {
    Local(rootDirectory, "", if public then 493 else 448)
  }

  const DotDotError: Error :=
    Opaque("*errors.errorString", "location contains `..` which might cause access outside of the rootdir")
  const AbsoluteError: Error :=
    Opaque("*errors.errorString", "location is an absolute path wich might cause access outside of the rootdir")

  /** `isValidLocation`: ".." anywhere is refused first, then a leading "/". */
  function IsValidLocation(location: string): (r: Option<Error>)
    ensures r.None? <==> !Contains(location, "..") && !HasPrefix(location, "/")
    ensures r == Some(DotDotError) <==> Contains(location, "..")
    ensures r == Some(AbsoluteError) <==> !Contains(location, "..") && HasPrefix(location, "/")
  {
    if Contains(location, "..") then Some(DotDotError)
    else if HasPrefix(location, "/") then Some(AbsoluteError)
    else None
  }

  /** ".." is refused wherever it occurs, even inside a name such as "a..b", and it is
      reported before a leading "/". */
  lemma ClimbingRefused(before: string, after: string)
    ensures IsValidLocation(before + ".." + after) == Some(DotDotError)
  {
    ContainsAt(before, "..", after);
  }

  /** A relative location with no two dots in a row is accepted; with a "/" in front it is
      refused as absolute. */
  lemma RelativeAccepted(location: string)
    requires !HasPrefix(location, "/")
    requires forall i :: 0 <= i < |location| - 1 ==> !(location[i] == '.' && location[i + 1] == '.')
    ensures IsValidLocation(location) == None
    ensures IsValidLocation("/" + location) == Some(AbsoluteError)
  {
    NoDotPair(location);
    var abs := "/" + location;
    assert abs[1..] == location;
    assert !HasPrefix(abs, "..") by { assert abs[0] == '/'; }
    assert abs[..1] == "/";
  }

  /** A string with no two dots in a row does not contain "..". */
  lemma {:induction false} NoDotPair(s: string)
    requires forall i :: 0 <= i < |s| - 1 ==> !(s[i] == '.' && s[i + 1] == '.')
    ensures !Contains(s, "..")
    decreases |s|
  {
    if |s| >= 2 {
      assert !(s[0] == '.' && s[1] == '.');
      assert s[..2] != "..";
      NoDotPair(s[1..]);
    } else if |s| == 1 {
      ContainsTooLong(s[1..], "..");
    }
  }

  /** `PathTo`: the root directory, the platform's path separator, then the location. */
  function PathTo(l: Local, location: string, separator: char): (r: Result<string, Error>)
    ensures IsValidLocation(location).Some? ==> r == Err(IsValidLocation(location).value)
    ensures IsValidLocation(location).None? ==> r == Ok(l.rootdir + [separator] + location)
  {
    match IsValidLocation(location)
    case Some(e) => Err(e)
    case None => Ok(l.rootdir + [separator] + location)
  }

  /** `Url`: the root directory, "/", then the location; a refused location is wrapped. */
  function Url(l: Local, location: string): (r: Result<string, Error>)
    ensures IsValidLocation(location).Some? ==>
      r == Err(Wrapped("Failed to get url for location '" + location + "': ", IsValidLocation(location).value))
    ensures IsValidLocation(location).None? ==> r == Ok(l.rootdir + "/" + location)
  {
    match IsValidLocation(location)
    case Some(e) => Err(Wrapped("Failed to get url for location '" + location + "': ", e))
    case None => Ok(l.rootdir + "/" + location)
  }

  /** The check `Put` makes before touching the filesystem. */
  function PutPrecheck(l: Local, location: string, separator: char): (r: Option<Error>)
    ensures r.Some? <==> IsValidLocation(location).Some?
    ensures r.Some? ==> r.value == Wrapped("Failed to put to location '" + location + "': ", IsValidLocation(location).value)
  {
    match PathTo(l, location, separator)
    case Err(e) => Some(Wrapped("Failed to put to location '" + location + "': ", e))
    case Ok(_) => None
  }

  /** A path and a URL are found for the same locations; on a system whose separator is "/"
      they are the same string, and the location can be read back from either. */
  lemma PathAndUrlAgree(l: Local, location: string, separator: char)
    ensures PathTo(l, location, separator).Ok? <==> Url(l, location).Ok?
    ensures separator == '/' && Url(l, location).Ok? ==> PathTo(l, location, separator) == Url(l, location)
    ensures Url(l, location).Ok? ==>
      var u := Url(l, location).value; u[|l.rootdir| + 1..] == location && u[..|l.rootdir|] == l.rootdir
  {
  }

  /** Whatever `NewLocal` was given as base url, URLs are built from the root directory. */
  lemma UrlIgnoresBaseUrl(root: string, base1: string, base2: string, public: bool, location: string)
    ensures Url(NewLocal(root, base1, public), location) == Url(NewLocal(root, base2, public), location)
  {
  }
}
