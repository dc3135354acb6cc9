/** Paging through a picker session, and the caps on what is downloaded. */
module Picker {
  import opened Wrappers
  import opened Ledgers

  datatype Page = Page(items: seq<string>, next: string)

  /** What the n-th request of one listing is answered. */
  type Answers = nat -> Result<Page, string>

  /** The n-th answer is the last: an error, or a page without a next token. */
  predicate Ends(answers: Answers, n: nat) {
    answers(n).Err? || answers(n).value.next == ""
  }

  /** The request after which a listing that ends by request `within` ends. */
  ghost function FirstEnd(answers: Answers, within: nat): (n: nat)
    requires Ends(answers, within)
    ensures n <= within && Ends(answers, n)
    ensures forall i :: 0 <= i < n ==> answers(i).Ok? && answers(i).value.next != ""
  {
    if i: nat :| i < within && Ends(answers, i) then FirstEnd(answers, i)
    else
      assert forall i :: 0 <= i < within ==> answers(i).Ok? && answers(i).value.next != "" by {
        forall i: nat | i < within
          ensures answers(i).Ok? && answers(i).value.next != ""
        {
          assert !Ends(answers, i);
        }
      }
      within
  }

  /** The first `n` pages, if all of them came. */
  ghost function Pages(answers: Answers, n: nat): (pages: seq<seq<string>>)
    requires forall i :: 0 <= i < n ==> answers(i).Ok?
    ensures |pages| == n && forall i :: 0 <= i < n ==> pages[i] == answers(i).value.items
  {
    seq(n, i requires 0 <= i < n => answers(i).value.items)
  }

  lemma OneMorePage(pages: seq<seq<string>>, n: nat)
    requires n < |pages|
    ensures Flatten(pages[..n + 1]) == Flatten(pages[..n]) + pages[n]
  {
    assert pages[..n + 1][..n] == pages[..n];
  }

  lemma NoPages(pages: seq<seq<string>>)
    ensures Flatten(pages[..0]) == []
  {
  }

  /**
    All items of all pages in order, whatever the pages, empty ones included; or the first error. `tokens` are the page
    tokens sent: none first, then each page's next token.
   */
  method ListSessionMediaItems(answers: Answers, ghost within: nat)
    returns (r: Result<seq<string>, string>, tokens: seq<string>)
    requires Ends(answers, within)
    ensures var n := FirstEnd(answers, within);
            && (answers(n).Ok? ==> r == Ok(Flatten(Pages(answers, n + 1))))
            && (answers(n).Err? ==> r == Err(answers(n).error))
            && |tokens| == n + 1 && tokens[0] == ""
            && forall i :: 0 <= i < n ==> answers(i).Ok? && tokens[i + 1] == answers(i).value.next != ""
  {
    hide FirstEnd, Pages, Flatten;
    ghost var end := FirstEnd(answers, within);
    ghost var pages := Pages(answers, if answers(end).Ok? then end + 1 else end);
    NoPages(pages);
    var out: seq<string> := [];
    var pageToken := "";
    tokens := [];
    while true
      invariant |tokens| <= end
      invariant out == Flatten(pages[..|tokens|])
      invariant if |tokens| == 0 then pageToken == "" else tokens[0] == "" && pageToken == answers(|tokens| - 1).value.next
      invariant forall i :: 0 <= i < |tokens| - 1 ==> tokens[i + 1] == answers(i).value.next
      decreases end - |tokens|
    {
      var n := |tokens|;
      tokens := tokens + [pageToken];
      var answer := answers(n);
      assert Ends(answers, n) ==> n == end;
      if answer.Err? {
        return Err(answer.error), tokens;
      }
      OneMorePage(pages, n);
      out := out + answer.value.items;
      if answer.value.next == "" {
        assert pages[..n + 1] == pages;
        return Ok(out), tokens;
      }
      pageToken := answer.value.next;
    }
  }

  // ----- download caps -----

  datatype DownloadError = DownloadTooBig | PhotoTooLarge

  datatype Image = Image(width: nat, height: nat)

  const MAX_INT64: int := 0x7fff_ffff_ffff_ffff

  predicate Int64(x: int) {
    -MAX_INT64 - 1 <= x <= MAX_INT64
  }

  /** What is left of a result in 64-bit arithmetic. */
  function Wrap64(x: int): int {
    var m := x % 0x1_0000_0000_0000_0000;
    if m <= MAX_INT64 then m else m - 0x1_0000_0000_0000_0000
  }

  /** `io.LimitReader`: at most `limit` bytes. */
  function Limited(wire: seq<bv8>, limit: int): seq<bv8> {
    if limit <= 0 then [] else if |wire| <= limit then wire else wire[..limit]
  }

  /** `image.DecodeConfig`: the dimensions in the header of a file, if it has a header that a registered decoder accepts. */
  type Decoder = seq<bv8> -> Option<Image>

  /**
    What the registered decoders accept. JPEG dimensions have 16 bits; the PNG decoder refuses dimensions of more pixels
    than can be counted in 64 bits at eight bytes each.
   */
  predicate Accepted(image: Image) {
    (image.width <= 0xffff && image.height <= 0xffff) || image.width * image.height * 8 <= MAX_INT64
  }

  /** Only the JPEG and the PNG decoder are registered, and an empty file has no header. */
  ghost predicate JpegAndPng(decode: Decoder) {
    decode([]) == None && forall file: seq<bv8> | decode(file).Some? :: Accepted(decode(file).value)
  }

  /** The bytes a decoded picture takes, as the code computes them. */
  function DecodedBytes(image: Image): int {
    Wrap64(Wrap64(image.width * image.height) * 4)
  }

  function DownloadMediaItem(wire: seq<bv8>, decode: Decoder, maxBytes: int, maxDecodedBytes: int)
    : Result<seq<bv8>, DownloadError>
  {
    var body := Limited(wire, Wrap64(maxBytes + 1));
    if |body| > maxBytes then Err(DownloadTooBig)
    else if maxDecodedBytes > 0 && decode(body).Some? && DecodedBytes(decode(body).value) > maxDecodedBytes then
      Err(PhotoTooLarge)
    else Ok(body)
  }

  /** For every header a registered decoder accepts the size is computed without wrapping around. */
  lemma NoHeaderWraps(image: Image)
    requires Accepted(image)
    ensures DecodedBytes(image) == image.width * image.height * 4
  {
    hide Wrap64;
    var pixels: nat := image.width * image.height;
    if image.width <= 0xffff && image.height <= 0xffff {
      ProductBounded(image.width, image.height, 0xffff);
    }
    NoWrap(pixels);
  }

  lemma NoWrap(pixels: nat)
    requires pixels * 4 <= MAX_INT64
    ensures Wrap64(Wrap64(pixels) * 4) == pixels * 4
  {
  }

  lemma ProductBounded(a: nat, b: nat, max: nat)
    requires a <= max && b <= max
    ensures a * b <= max * max
  {
    assert a * b <= a * max;
  }

  /** The pixel cap turns the picture away: at four bytes a pixel it takes more than that. */
  ghost predicate BeyondPixelCap(wire: seq<bv8>, decode: Decoder, maxDecodedBytes: int) {
    maxDecodedBytes > 0 && decode(wire).Some? && decode(wire).value.width * decode(wire).value.height * 4 > maxDecodedBytes
  }

  /**
    What reaches the sink: under any byte cap but the largest there is, the whole file, never cut off, exactly if it is
    within the byte cap and its picture, where it is known and capped, within the pixel cap. Under the largest byte cap the
    limit wraps around, and every file arrives empty.
   */
  lemma DownloadPassesIff(wire: seq<bv8>, decode: Decoder, maxBytes: int, maxDecodedBytes: int)
    requires Int64(maxBytes) && JpegAndPng(decode)
    ensures var r := DownloadMediaItem(wire, decode, maxBytes, maxDecodedBytes);
            if maxBytes == MAX_INT64 then r == Ok([])
            else
              && (r == Ok(wire) <==> |wire| <= maxBytes && !BeyondPixelCap(wire, decode, maxDecodedBytes))
              && (r == Err(DownloadTooBig) <==> |wire| > maxBytes)
              && (r == Err(PhotoTooLarge) <==> |wire| <= maxBytes && BeyondPixelCap(wire, decode, maxDecodedBytes))
              && (r.Ok? ==> r == Ok(wire))
  {
    hide DecodedBytes, Accepted;
    if decode(wire).Some? {
      NoHeaderWraps(decode(wire).value);
    }
  }

  /** Files pass whole or not at all if and only if the byte cap is not the largest 64-bit number. */
  lemma NothingIsCutOffIff(decode: Decoder, maxBytes: int)
    requires Int64(maxBytes) && JpegAndPng(decode)
    ensures (forall wire: seq<bv8>, maxDecodedBytes: int ::
               var r := DownloadMediaItem(wire, decode, maxBytes, maxDecodedBytes); r.Ok? ==> r.value == wire)
            <==> maxBytes != MAX_INT64
  {
    hide DownloadMediaItem, JpegAndPng;
    if maxBytes == MAX_INT64 {
      DownloadPassesIff([0], decode, maxBytes, 0);
    } else {
      forall wire: seq<bv8>, maxDecodedBytes: int
        ensures var r := DownloadMediaItem(wire, decode, maxBytes, maxDecodedBytes); r.Ok? ==> r.value == wire
      {
        DownloadPassesIff(wire, decode, maxBytes, maxDecodedBytes);
      }
    }
  }
}
