/** utils.go: form validation of the credentials and the session set-up of a
    fresh login. */
module Utils {
  import opened Common

  const NoCredentials: string := "failed to parse username and password: no username or password"

  /** getUsernameAndPassword (utils.go:11-23). The guard after `ParseForm`
      tests the named result `err`, which is still nil, so a form that fails
      to parse is never reported: whatever was parsed is used. */
  function GetUsernameAndPassword(r: Request): (res: Result<(string, string)>)
    ensures res.Ok? <==> FormValue(r, "username") != "" && FormValue(r, "password") != ""
    ensures res.Ok? ==> res.value == (FormValue(r, "username"), FormValue(r, "password"))
    ensures res.Err? ==> res.error == NoCredentials
  {
    var username := FormValue(r, "username");
    var password := FormValue(r, "password");
    if username == "" || password == "" then Err(NoCredentials)
    else Ok((username, password))
  }

  /** The outcome does not depend on whether `ParseForm` failed. */
  lemma ParseFormErrorIgnored(r: Request, e: string)
    ensures GetUsernameAndPassword(r.(formError := Some(e))) == GetUsernameAndPassword(r.(formError := None))
  {
  }

  /** getUsernameAndPassword as its guard was meant to read (testing the
      error `ParseForm` returned): a form that does not parse is reported. */
  function GetUsernameAndPasswordIntended(r: Request): (res: Result<(string, string)>)
    ensures r.formError.Some? ==> res == Err("failed to parse username and password: " + r.formError.value)
    ensures r.formError.None? ==> res == GetUsernameAndPassword(r)
  {
    if r.formError.Some? then Err("failed to parse username and password: " + r.formError.value)
    else GetUsernameAndPassword(r)
  }

  /** A body that fails to parse but whose query string carries both
      credentials is accepted as written and refused as intended. */
  lemma ParseErrorSlipsThrough()
    ensures var r := Request("POST", Some("bad escape"), map["username" := "d", "password" := "p"]);
      && GetUsernameAndPassword(r) == Ok(("d", "p"))
      && GetUsernameAndPasswordIntended(r).Err?
  {
  }

  /** initSession (utils.go:37-43): a one-day MaxAge, the authenticated flag
      and an empty encoded history; the user name is left as it was. */
  method InitSession(s: Session)
    modifies s
    ensures s.Current() == old(s.Current()).(maxAge := 24 * 3600, authenticated := Some(true), messages := Some(Json(NoBytes)))
    ensures s.persisted == old(s.persisted)
  {
    s.maxAge := 24 * 3600;
    s.authenticated := Some(true);
    s.messages := Some(Json(NoBytes));
  }
}
