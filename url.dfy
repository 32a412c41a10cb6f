/**
 * Deriving the browser URL from a line of the notebook server's log, with
 * Python's `find` and slicing: `find` gives -1 when the text is absent,
 * `line[a:-1]` drops the line's final character (its newline), and
 * `line[-1:-1]` is empty.
 */
module UrlWatch {
  import opened Wrappers
  import opened PyStr

  /** The address the server announces; the launcher matches on it. */
  const ServerPrefix := "http://0.0.0.0:"
  /** Where the access token starts in an announced URL. */
  const TokenMarker := "?token="
  /** The host the browser is sent to. */
  const LocalPrefix := "http://localhost:"

  /**
   * The URL derived from one log line, or `None` when the line does not
   * announce the server. Without a notebook, the announced port, path and
   * token are kept and the host becomes `localhost`; with a notebook, the
   * URL opens that notebook on `portHttp`, followed by the line's token part
   * (empty when the line has no `?token=`).
   */
  function DeriveUrl(line: string, notebook: string, portHttp: string): (url: Option<string>)
    ensures url.None? <==> forall i :: !OccursAt(line, ServerPrefix, i)
    ensures url.Some? ==> |url.value| >= |LocalPrefix| && url.value[..|LocalPrefix|] == LocalPrefix
  {
    var ind := Find(line, ServerPrefix);
    if ind < 0 then None
    else if notebook == "" then Some(LocalPrefix + Slice(line, ind + |ServerPrefix|, -1))
    else Some(LocalPrefix + portHttp + "/notebooks/" + notebook + Slice(line, Find(line, TokenMarker), -1))
  }

  /** The announced address's first character does not recur in it. */
  lemma ServerPrefixLeads()
    ensures |ServerPrefix| == 15
    ensures forall k :: 1 <= k < |ServerPrefix| ==> ServerPrefix[k] != ServerPrefix[0]
  {
  }

  /** The token marker's first character does not recur in it. */
  lemma TokenMarkerLeads()
    ensures forall k :: 1 <= k < |TokenMarker| ==> TokenMarker[k] != TokenMarker[0]
  {
  }

  /**
   * Without a notebook: for a line `pre + "http://0.0.0.0:" + rest + "\n"`
   * whose prefix does not announce the server, the URL is
   * `"http://localhost:" + rest`.
   */
  lemma UrlFromAnnouncement(pre: string, rest: string, portHttp: string)
    requires forall i :: !OccursAt(pre, ServerPrefix, i)
    ensures DeriveUrl(pre + ServerPrefix + rest + "\n", "", portHttp) == Some(LocalPrefix + rest)
  {
    var line := pre + ServerPrefix + rest + "\n";
    ServerPrefixLeads();
    assert line == pre + ServerPrefix + (rest + "\n");
    FindAfterPrefix(pre, ServerPrefix, rest + "\n");
    assert line[|pre| + 15..|line| - 1] == rest;
  }

  /**
   * With a notebook: for a line `pre + "http://0.0.0.0:" + mid + "?token=" +
   * token + "\n"` where neither marker appears earlier, the URL opens the
   * notebook on the reserved port and carries `"?token=" + token`.
   */
  lemma UrlForNotebook(pre: string, mid: string, token: string, notebook: string, portHttp: string)
    requires notebook != ""
    requires forall i :: !OccursAt(pre, ServerPrefix, i)
    requires forall i :: !OccursAt(pre + ServerPrefix + mid, TokenMarker, i)
    ensures DeriveUrl(pre + ServerPrefix + mid + TokenMarker + token + "\n", notebook, portHttp)
            == Some(LocalPrefix + portHttp + "/notebooks/" + notebook + TokenMarker + token)
  {
    var head := pre + ServerPrefix + mid;
    var line := pre + ServerPrefix + mid + TokenMarker + token + "\n";
    assert line == pre + ServerPrefix + (mid + TokenMarker + token + "\n");
    assert line == head + TokenMarker + (token + "\n");
    AnnouncementFound(pre, mid + TokenMarker + token + "\n");
    TokenFound(head, token);
    NotebookUrlAt(line, notebook, portHttp, |head|);
    var opening := LocalPrefix + portHttp + "/notebooks/" + notebook;
    assert opening + (TokenMarker + token) == opening + TokenMarker + token;
  }

  /** The announcement after a prefix free of it is the one `find` reports. */
  lemma AnnouncementFound(pre: string, tail: string)
    requires forall i :: !OccursAt(pre, ServerPrefix, i)
    ensures Find(pre + ServerPrefix + tail, ServerPrefix) == |pre|
  {
    ServerPrefixLeads();
    FindAfterPrefix(pre, ServerPrefix, tail);
  }

  /**
   * The token marker after a head free of it is the one `find` reports, and
   * slicing from there to -1 keeps the marker and the token, not the newline.
   */
  lemma TokenFound(head: string, token: string)
    requires forall i :: !OccursAt(head, TokenMarker, i)
    ensures var line := head + TokenMarker + (token + "\n");
      Find(line, TokenMarker) == |head| && 0 <= |head| < |line|
      && line[|head|..|line| - 1] == TokenMarker + token
  {
    TokenMarkerLeads();
    FindAfterPrefix(head, TokenMarker, token + "\n");
    var line := head + TokenMarker + (token + "\n");
    assert line[|head|..|line| - 1] == TokenMarker + token;
  }

  /**
   * Without a notebook, the URL is everything after the first announced
   * address except the line's last character, whatever that character is:
   * a final line without a newline loses its last real character.
   */
  lemma UrlAt(line: string, portHttp: string, ind: int)
    requires Find(line, ServerPrefix) == ind >= 0 && ind + |ServerPrefix| < |line|
    ensures DeriveUrl(line, "", portHttp) == Some(LocalPrefix + line[ind + |ServerPrefix|..|line| - 1])
  {
  }

  /** The last line of a stream that closes without a newline loses its final character. */
  lemma UrlWithoutNewline(pre: string, rest: string, last: char, portHttp: string)
    requires forall i :: !OccursAt(pre, ServerPrefix, i)
    ensures DeriveUrl(pre + ServerPrefix + rest + [last], "", portHttp) == Some(LocalPrefix + rest)
  {
    var line := pre + ServerPrefix + rest + [last];
    assert line == pre + ServerPrefix + (rest + [last]);
    AnnouncementFound(pre, rest + [last]);
    UrlAt(line, portHttp, |pre|);
    assert line[|pre| + |ServerPrefix|..|line| - 1] == rest;
  }

  /** With a notebook, the URL carries the line from its first `?token=` up to its last character. */
  lemma NotebookUrlAt(line: string, notebook: string, portHttp: string, k: int)
    requires notebook != "" && Find(line, ServerPrefix) >= 0
    requires Find(line, TokenMarker) == k && 0 <= k < |line|
    ensures DeriveUrl(line, notebook, portHttp)
            == Some(LocalPrefix + portHttp + "/notebooks/" + notebook + line[k..|line| - 1])
  {
  }

  /**
   * With a notebook and no `?token=` anywhere in the line, the token part is
   * `line[-1:-1]`, which is empty.
   */
  lemma UrlForNotebookWithoutToken(pre: string, rest: string, notebook: string, portHttp: string)
    requires notebook != ""
    requires forall i :: !OccursAt(pre, ServerPrefix, i)
    requires forall i :: !OccursAt(pre + ServerPrefix + rest + "\n", TokenMarker, i)
    ensures DeriveUrl(pre + ServerPrefix + rest + "\n", notebook, portHttp)
            == Some(LocalPrefix + portHttp + "/notebooks/" + notebook)
  {
    var line := pre + ServerPrefix + rest + "\n";
    assert line == pre + ServerPrefix + (rest + "\n");
    AnnouncementFound(pre, rest + "\n");
    NotebookUrlNoToken(line, notebook, portHttp);
  }

  /** With a notebook and no token marker, the token part `line[-1:-1]` is empty. */
  lemma NotebookUrlNoToken(line: string, notebook: string, portHttp: string)
    requires notebook != "" && Find(line, ServerPrefix) >= 0 && Find(line, TokenMarker) == -1
    ensures DeriveUrl(line, notebook, portHttp) == Some(LocalPrefix + portHttp + "/notebooks/" + notebook)
  {
    var opening := LocalPrefix + portHttp + "/notebooks/" + notebook;
    assert Slice(line, -1, -1) == [];
    assert opening + [] == opening;
  }

  /** The server's log line announcing it at port 9999 with token abc123. */
  predicate IsExampleLine(line: string) {
    line == "[I NotebookApp] " + ServerPrefix + "9999/" + TokenMarker + "abc123" + "\n"
  }

  /** That announcement gives `http://localhost:9999/?token=abc123` without a notebook. */
  lemma ExampleWithoutNotebook(line: string)
    requires IsExampleLine(line)
    ensures DeriveUrl(line, "", "9999") == Some("http://localhost:" + "9999/?token=abc123")
  {
    var pre := "[I NotebookApp] ";
    AbsentWithoutLead(pre, ServerPrefix);
    var rest := "9999/?token=abc123";
    assert line == pre + ServerPrefix + rest + "\n";
    UrlFromAnnouncement(pre, rest, "9999");
  }

  /** With notebook `foo.ipynb` and port 9999 it gives `http://localhost:9999/notebooks/foo.ipynb?token=abc123`. */
  lemma ExampleWithNotebook(line: string)
    requires IsExampleLine(line)
    ensures DeriveUrl(line, "foo.ipynb", "9999")
            == Some("http://localhost:" + "9999" + "/notebooks/" + "foo.ipynb" + "?token=" + "abc123")
  {
    var pre := "[I NotebookApp] ";
    var head := pre + ServerPrefix + "9999/";
    AbsentWithoutLead(pre, ServerPrefix);
    assert '?' !in head by {
      forall k | 0 <= k < |head| ensures head[k] != '?' {
      }
    }
    AbsentWithoutLead(head, TokenMarker);
    UrlForNotebook(pre, "9999/", "abc123", "foo.ipynb", "9999");
  }
}
