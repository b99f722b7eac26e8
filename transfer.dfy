/** `Client._download` (cdsapi/api.py:108-128): stream the result into a local
    file, keeping the non-empty chunks in order, and check the byte total. */
module Transfer {
  import opened Outcomes
  import opened Text
  import opened Logging
  import opened Protocol
  import opened Retry
  import opened Units

  /** The bytes of `chunks`, in order. */
  function Flatten(chunks: seq<Chunk>): seq<byte>
  {
    if chunks == [] then [] else Flatten(chunks[..|chunks| - 1]) + chunks[|chunks| - 1]
  }

  /** The chunks that are not empty, the ones `if chunk:` writes. */
  function NonEmpty(chunks: seq<Chunk>): seq<Chunk>
  {
    if chunks == [] then []
    else NonEmpty(chunks[..|chunks| - 1]) + (if chunks[|chunks| - 1] == [] then [] else [chunks[|chunks| - 1]])
  }

  /** Skipping the empty chunks loses no byte: the file is the whole body. */
  lemma {:induction false} NonEmptyFlatten(chunks: seq<Chunk>)
    ensures Flatten(NonEmpty(chunks)) == Flatten(chunks)
    ensures forall i :: 0 <= i < |NonEmpty(chunks)| ==> NonEmpty(chunks)[i] != []
  {
    if chunks != [] {
      var init := chunks[..|chunks| - 1];
      var last := chunks[|chunks| - 1];
      NonEmptyFlatten(init);
      FlattenAppend(NonEmpty(init), if last == [] then [] else [last]);
      if last != [] {
        assert Flatten([last]) == last by {
          assert [last][..0] == [];
        }
      }
    }
  }

  lemma {:induction false} FlattenAppend(a: seq<Chunk>, b: seq<Chunk>)
    ensures Flatten(a + b) == Flatten(a) + Flatten(b)
    decreases |b|
  {
    if b == [] {
      assert a + b == a;
    } else {
      var init := b[..|b| - 1];
      assert (a + b)[..|a + b| - 1] == a + init;
      assert (a + b)[|a + b| - 1] == b[|b| - 1];
      FlattenAppend(a, init);
    }
  }

  /** `url.split('/')[-1]`, the default file name. */
  function LastSegment(url: string): string
  {
    var parts := Split(url, '/');
    parts[|parts| - 1]
  }

  /** The default file name is the end of the URL after its last '/', or the
      whole URL when it has no '/'. */
  lemma {:induction false} LastSegmentOfUrl(url: string)
    ensures '/' !in LastSegment(url)
    ensures |LastSegment(url)| <= |url| && url[|url| - |LastSegment(url)|..] == LastSegment(url)
    ensures |LastSegment(url)| < |url| ==> url[|url| - |LastSegment(url)| - 1] == '/'
    ensures '/' !in url ==> LastSegment(url) == url
    decreases |url|
  {
    if '/' in url {
      var parts := SplitFirst(url, '/');
      var tail := parts.1;
      LastSegmentOfUrl(tail);
      LastSegmentAfterSlash(url);
      SuffixAfterSlash(url, parts.0, tail, LastSegment(tail));
    }
  }

  lemma LastSegmentAfterSlash(url: string)
    requires '/' in url
    ensures LastSegment(url) == LastSegment(SplitFirst(url, '/').1)
  {
    var rest := Split(SplitFirst(url, '/').1, '/');
    assert Split(url, '/') == [SplitFirst(url, '/').0] + rest;
  }

  lemma SuffixAfterSlash(url: string, head: string, tail: string, seg: string)
    requires url == head + ['/'] + tail
    requires |seg| <= |tail| && tail[|tail| - |seg|..] == seg
    requires |seg| < |tail| ==> tail[|tail| - |seg| - 1] == '/'
    ensures url[|url| - |seg|..] == seg
    ensures |seg| < |url| ==> url[|url| - |seg| - 1] == '/'
  {
    var n := |head| + 1;
    assert url[n..] == tail;
    assert url[|url| - |seg|..] == tail[|tail| - |seg|..];
  }

  datatype Transferred = Transferred(result: Result<string>, log: seq<Event>)

  /** `_download(url, size, local_filename)`: the file name returned, or the
      failure, and the log. */
  function DownloadRun(cfg: Settings, url: string, size: int, localFilename: Option<string>,
                       attempts: seq<Outcome>, elapsed: real): Transferred
    requires |attempts| >= cfg.retryMax
  {
    var filename := if localFilename.Some? then localFilename.value else LastSegment(url);
    match HumanSize(size as real)
    case Err(f) => Transferred(Err(f), [])
    case Ok(sizeText) =>
      var started := [Log(cfg, Info, Downloading(url, filename, sizeText))];
      var got := Robust(cfg, attempts);
      match got.response
      case None => Transferred(Err(NoResponse), started + got.log + [Saved(filename, [])])
      case Some(r) =>
        var data := Flatten(r.body);
        var written := started + got.log + [Saved(filename, data)];
        if |data| != size then Transferred(Err(SizeMismatch(|data|, size)), written)
        else if elapsed == 0.0 then Transferred(Ok(filename), written)
        else
          match HumanSize(size as real / elapsed)
          case Err(f) => Transferred(Err(f), written)
          case Ok(rate) => Transferred(Ok(filename), written + [Log(cfg, Info, DownloadRate(rate))])
  }

  /** When the server answers, the file holds exactly the body's bytes in order,
      and the download succeeds only if their number is the expected size. */
  lemma DownloadWritesBody(cfg: Settings, url: string, size: int, localFilename: Option<string>,
                           attempts: seq<Outcome>, elapsed: real)
    requires |attempts| >= cfg.retryMax
    requires size < 1024 * 1024 * 1024 * 1024 * 1024 * 1024
    requires Robust(cfg, attempts).response.Some?
    ensures var d := DownloadRun(cfg, url, size, localFilename, attempts, elapsed);
      var body := Robust(cfg, attempts).response.value.body;
      var filename := if localFilename.Some? then localFilename.value else LastSegment(url);
      && Saved(filename, Flatten(NonEmpty(body))) in d.log
      && (d.result.Err? && d.result.failure.SizeMismatch? <==> |Flatten(body)| != size)
      && (d.result.Ok? ==> d.result.value == filename && |Flatten(body)| == size)
  {
    var d := DownloadRun(cfg, url, size, localFilename, attempts, elapsed);
    HumanSizeFails(size as real);
    assert Pow1024(6) == (1024 * 1024 * 1024 * 1024 * 1024 * 1024) as real;
    NonEmptyFlatten(Robust(cfg, attempts).response.value.body);
    if d.result.Ok? && elapsed != 0.0 {
      assert HumanSize(size as real / elapsed).Ok?;
    }
  }
}
