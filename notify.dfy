/** What `main` does once the server task has finished draining: build the upstream
    shutdown URL and, unless it is empty, issue one GET to it (src/main.rs:135-152). */
module UpstreamNotify {

  import opened Wrappers
  import opened GatewayConfig

  /** The URL to notify: the configured shutdown URL with the shutdown key appended as
      a literal suffix, without any encoding; `None` when that string is empty. */
  function NotificationUrl(config: Config): (url: Option<string>)
    ensures url.None? <==> config.shutdownUrl == [] && config.shutdownKey == []
    ensures url.Some? ==>
      && |url.value| == |config.shutdownUrl| + |config.shutdownKey|
      && url.value[..|config.shutdownUrl|] == config.shutdownUrl
      && url.value[|config.shutdownUrl|..] == config.shutdownKey
  {
    var u := config.shutdownUrl + config.shutdownKey;
    if |u| == 0 then None else Some(u)
  }

  /** The example configuration from the usage text: the key lands right after `key=`. */
  lemma NotificationUrlExample()
    ensures NotificationUrl(Config("127.0.0.1:8008", "/upstream/path", "http://127.0.0.1:8080/",
                                   "2a2a3a6dafe30", "http://127.0.0.1:8080/shutdown?key="))
         == Some("http://127.0.0.1:8080/shutdown?key=2a2a3a6dafe30")
  {
    assert "http://127.0.0.1:8080/shutdown?key=" + "2a2a3a6dafe30"
        == "http://127.0.0.1:8080/shutdown?key=2a2a3a6dafe30";
  }

  /** The steps of `main` after serving, as an outside observer sees them. */
  datatype Event = ServerFinished | UpstreamRequest(url: string)

  /** The outcome of the upstream GET and of reading its body as text. */
  datatype Fetch = Body(text: string) | FetchError(message: string)

  /** How `main` returns: `Ok(())`, or the error its `?` propagated. */
  datatype Exit = ExitOk | ExitErr(message: string)

  datatype MainRun = MainRun(events: seq<Event>, exit: Exit)

  /** The tail of `main`: the server task has finished; then the upstream is notified
      at most once, only when the URL is not empty. A failed notification makes `main`
      return that error. `fetch` stands for the network's answer, used only when the
      request is issued. */
  function AfterServe(config: Config, fetch: Fetch): (m: MainRun)
    ensures 1 <= |m.events| <= 2 && m.events[0] == ServerFinished
    ensures |m.events| == 2 <==> NotificationUrl(config).Some?
    ensures |m.events| == 2 ==> m.events[1] == UpstreamRequest(config.shutdownUrl + config.shutdownKey)
    ensures m.exit.ExitErr? <==> |m.events| == 2 && fetch.FetchError?
    ensures m.exit.ExitErr? ==> m.exit.message == fetch.message
  {
    match NotificationUrl(config)
    case None => MainRun([ServerFinished], ExitOk)
    case Some(url) =>
      var exit := match fetch
        case Body(_) => ExitOk
        case FetchError(e) => ExitErr(e);
      MainRun([ServerFinished, UpstreamRequest(url)], exit)
  }
}
