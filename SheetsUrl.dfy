/** Spreadsheet-ID extraction from a Google Sheets link (Index.tsx,
    `handleGoogleSheetsUrl`): the first match of
    `/\/spreadsheets\/d\/([a-zA-Z0-9-_]+)/` and its capture group. */
module SheetsUrl {
  import opened Wrappers

  const Marker := "/spreadsheets/d/"

  /** The class `[a-zA-Z0-9-_]`: ASCII letters, digits, '-' and '_'. */
  predicate IsIdChar(c: char) {
    ('a' <= c <= 'z') || ('A' <= c <= 'Z') || ('0' <= c <= '9') || c == '-' || c == '_'
  }

  predicate IsId(id: string) {
    |id| > 0 && forall i :: 0 <= i < |id| ==> IsIdChar(id[i])
  }

  /** The pattern matches at position `p`: the marker followed by at least one ID character. */
  predicate MatchesAt(url: string, p: nat) {
    p + |Marker| < |url| && url[p..p + |Marker|] == Marker && IsIdChar(url[p + |Marker|])
  }

  /** The greedy `+`: the longest prefix of ID characters. */
  function IdRun(s: string): (r: string)
    ensures r <= s
    ensures forall i :: 0 <= i < |r| ==> IsIdChar(r[i])
    ensures |r| == |s| || !IsIdChar(s[|r|])
  {
    if s == [] || !IsIdChar(s[0]) then [] else [s[0]] + IdRun(s[1..])
  }

  /** The leftmost match at or after `p`. */
  function FirstMatch(url: string, p: nat): (r: Option<nat>)
    ensures r.Some? ==> p <= r.value && MatchesAt(url, r.value)
    ensures r.Some? ==> forall q :: p <= q < r.value ==> !MatchesAt(url, q)
    ensures r.None? ==> forall q :: p <= q ==> !MatchesAt(url, q)
    decreases |url| - p
  {
    if p + |Marker| >= |url| then None
    else if MatchesAt(url, p) then Some(p)
    else FirstMatch(url, p + 1)
  }

  /** `match ? match[1] : error`: the captured ID, or None when the link does not match. */
  function SpreadsheetId(url: string): (r: Option<string>)
    ensures r.None? <==> forall p: nat :: !MatchesAt(url, p)
    ensures r.Some? ==> IsId(r.value) && exists p: nat ::
      && MatchesAt(url, p)
      && (forall q: nat :: q < p ==> !MatchesAt(url, q))
      && r.value == IdRun(url[p + |Marker|..])
  {
    match FirstMatch(url, 0)
    case None => None
    case Some(p) => Some(IdRun(url[p + |Marker|..]))
  }

  const Host := "https://docs.google.com"
  const ExportSuffix := "/export?format=csv&gid=0"

  /** The CSV export address built from the ID. */
  function ExportUrl(id: string): string {
    Host + Marker + id + ExportSuffix
  }

  /** No position of the host holds the "/s" a match starts with. */
  lemma NoSlashS(q: nat)
    requires q < |Host|
    ensures Host[q] != '/' || (q + 1 < |Host| && Host[q + 1] != 's')
  {
    if q < 6 {} else if q < 8 {} else {}
  }

  lemma {:induction false} IdRunStops(id: string, rest: string)
    requires forall i :: 0 <= i < |id| ==> IsIdChar(id[i])
    requires rest != [] && !IsIdChar(rest[0])
    ensures IdRun(id + rest) == id
  {
    if id == [] {
      assert id + rest == rest;
    } else {
      assert (id + rest)[0] == id[0] && (id + rest)[1..] == id[1..] + rest;
      IdRunStops(id[1..], rest);
    }
  }

  /** Inside the host the pattern cannot match: the window there does not start with "/s". */
  lemma NoMatchInHost(id: string, q: nat)
    requires q < |Host|
    ensures !MatchesAt(ExportUrl(id), q)
  {
    var url := ExportUrl(id);
    NoSlashS(q);
    if q + |Marker| < |url| {
      var w := url[q..q + |Marker|];
      assert w[0] == url[q] == Host[q];
      assert w[1] == url[q + 1];
      if q + 1 < |Host| {
        assert url[q + 1] == Host[q + 1];
      }
      assert w[0] != Marker[0] || w[1] != Marker[1];
    }
  }

  /** Right after the host the marker follows, and then the ID up to the suffix. */
  lemma AfterHost(id: string)
    requires IsId(id)
    ensures MatchesAt(ExportUrl(id), |Host|)
    ensures ExportUrl(id)[|Host| + |Marker|..] == id + ExportSuffix
  {
    var url := ExportUrl(id);
    var tail := Marker + (id + ExportSuffix);
    assert url == Host + tail;
    assert url[|Host|..] == tail;
    assert url[|Host|..|Host| + |Marker|] == tail[..|Marker|] == Marker;
    assert url[|Host| + |Marker|..] == tail[|Marker|..] == id + ExportSuffix;
  }

  /** The scan stops at a match when nothing before it matches. */
  lemma {:induction false} FirstMatchAt(url: string, p: nat, m: nat)
    requires p <= m && MatchesAt(url, m)
    requires forall q :: p <= q < m ==> !MatchesAt(url, q)
    ensures FirstMatch(url, p) == Some(m)
    decreases m - p
  {
    if p < m {
      FirstMatchAt(url, p + 1, m);
    }
  }

  /** Round trip: the ID is recovered from the export address built from it. */
  lemma ExportUrlRoundTrip(id: string)
    requires IsId(id)
    ensures SpreadsheetId(ExportUrl(id)) == Some(id)
  {
    var url := ExportUrl(id);
    forall q: nat | q < |Host| ensures !MatchesAt(url, q) {
      NoMatchInHost(id, q);
    }
    AfterHost(id);
    FirstMatchAt(url, 0, |Host|);
    IdRunStops(id, ExportSuffix);
  }
}
