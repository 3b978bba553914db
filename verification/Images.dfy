/** Image budgets of one request (gateway_images.rs, gateway.rs). Pixels and codecs are not
    modelled; what an image library returns is a parameter. */
module Images {
  import opened Durable

  const DECODE_MEMORY_BYTES := 128 * 1024 * 1024
  const HARD_REQUEST_BYTES := 64 * 1024 * 1024
  const MAX_COMPLETION_BODY_BYTES := 8 * 1024 * 1024
  const ROUNDS := 16

  datatype Policy = Policy(mediaTypes: set<string>, maxCount: nat, maxBytes: nat, maxTotalBytes: nat,
                           maxWidth: nat, maxHeight: nat)

  datatype Limits = Limits(requestBytes: nat, imageBytes: nat, imagePixels: nat, imageDimension: nat,
                           maxParallel: nat)

  /** `IngressLimits::validate`. */
  predicate Supported(limits: Limits) {
    0 < limits.requestBytes <= HARD_REQUEST_BYTES && 0 < limits.imageBytes <= 32 * 1024 * 1024 &&
    0 < limits.imagePixels <= 32_000_000 && 0 < limits.imageDimension <= 16384 && 1 <= limits.maxParallel <= 4
  }

  type Size = (nat, nat)

  /** An uploaded frame: its text length, the number of bytes if that is valid base64, whether
      the magic bytes match the media type, the header if it is valid and within the dimension
      limit, and what full decoding gives. */
  datatype Upload = Upload(media: string, encodedLength: nat, bytes: Option<nat>, matches: bool,
                           header: Option<Size>, memory: nat, decoded: Option<Size>, alpha: bool)

  datatype Part = Part(media: string, bytes: nat, size: Size)

  /** One way to encode: media type and quality. */
  datatype Attempt = Attempt(media: string, quality: nat)

  /** The image library: resizing, and the lengths of the pieces that an encoder writes. */
  datatype Codec = Codec(resize: (Size, Size) -> Size, encode: (Size, Attempt) -> Option<seq<nat>>)

  /** A resized image is within the box and not empty; an encoder writes something. */
  ghost predicate Sound(codec: Codec) {
    (forall from: Size, to: Size | to.0 >= 1 && to.1 >= 1 ::
       1 <= codec.resize(from, to).0 <= to.0 && 1 <= codec.resize(from, to).1 <= to.1) &&
    (forall size: Size, a: Attempt :: codec.encode(size, a).Some? ==> Total(codec.encode(size, a).value) > 0)
  }

  function Total(pieces: seq<nat>): nat {
    if pieces == [] then 0 else Total(pieces[..|pieces| - 1]) + pieces[|pieces| - 1]
  }

  lemma {:induction false} TotalGrows(pieces: seq<nat>, n: nat)
    requires n <= |pieces|
    ensures Total(pieces[..n]) <= Total(pieces)
    decreases |pieces|
  {
    if n < |pieces| {
      TotalGrows(pieces[..|pieces| - 1], n);
      assert pieces[..|pieces| - 1][..n] == pieces[..n];
    } else {
      assert pieces[..n] == pieces;
    }
  }

  // ---- Base64 with padding, section 4 of RFC 4648 ----

  function Base64Length(n: nat): nat {
    (n + 2) / 3 * 4
  }

  /** Neither early check on the text length rejects an image within the byte limit. */
  lemma LengthChecksAreSafe(n: nat, limit: nat)
    requires n <= limit
    ensures Base64Length(n) <= (limit + 2) / 3 * 4
    ensures Base64Length(n) <= (limit + 2) / 3 * 4 + 4
  {
    assert (n + 2) / 3 <= (limit + 2) / 3;
  }

  /** What the libraries guarantee of an upload: padded text, and a decoded image has pixels. */
  predicate Canonical(u: Upload) {
    (u.bytes.Some? ==> u.encodedLength == Base64Length(u.bytes.value)) &&
    (u.decoded.Some? ==> u.decoded.value.0 >= 1 && u.decoded.value.1 >= 1)
  }

  // ---- Encoding under a byte limit ----

  /** `CappedWriter`. */
  class CappedWriter {
    var bytes: nat
    const limit: nat
    var exceeded: bool

    constructor (limit: nat)
      ensures this.limit == limit && bytes == 0 && !exceeded
    {
      this.limit, bytes, exceeded := limit, 0, false;
    }

    method Write(length: nat) returns (ok: bool)
      requires bytes <= limit
      modifies this
      ensures bytes <= limit && ok == (old(bytes) + length <= limit)
      ensures bytes == if ok then old(bytes) + length else old(bytes)
      ensures exceeded == (old(exceeded) || !ok)
    {
      if length > limit - bytes {
        exceeded := true;
        return false;
      }
      bytes := bytes + length;
      return true;
    }
  }

  datatype Encoded = Fits(bytes: nat) | TooLong | Broken

  /** `encode`: stopping at the first piece that does not fit decides exactly whether the
      whole output would have. */
  method Encode(codec: Codec, size: Size, a: Attempt, limit: nat) returns (r: Encoded)
    ensures r == EncodedAs(codec, size, a, limit)
  {
    var output := new CappedWriter(limit);
    var pieces := codec.encode(size, a);
    if pieces.None? {
      return Broken;
    }
    var i := 0;
    while i < |pieces.value|
      invariant 0 <= i <= |pieces.value| && output.bytes == Total(pieces.value[..i]) <= output.limit == limit
      invariant !output.exceeded
    {
      assert pieces.value[..i + 1][..i] == pieces.value[..i];
      TotalGrows(pieces.value, i + 1);
      var ok := output.Write(pieces.value[i]);
      if !ok {
        break;
      }
      i := i + 1;
    }
    assert pieces.value[..|pieces.value|] == pieces.value;
    return if output.exceeded then TooLong else Fits(output.bytes);
  }

  function EncodedAs(codec: Codec, size: Size, a: Attempt, limit: nat): Encoded {
    var pieces := codec.encode(size, a);
    if pieces.None? then Broken
    else if Total(pieces.value) <= limit then Fits(Total(pieces.value))
    else TooLong
  }

  // ---- One frame ----

  /** The encodings to try, in order. */
  function Attempts(alpha: bool, media: string): seq<Attempt> {
    (if alpha || media == "image/png" then [Attempt("image/png", 0)] else []) +
    (if alpha then [] else [Attempt("image/jpeg", 90), Attempt("image/jpeg", 80)]) +
    [Attempt("image/webp", 0)]
  }

  /** Found, given up, or nothing at this size. */
  datatype Search = Found(part: Part) | GivenUp | NotYet

  function Try(codec: Codec, policy: Policy, size: Size, attempts: seq<Attempt>, limit: nat): Search {
    if attempts == [] then NotYet
    else if attempts[0].media !in policy.mediaTypes then Try(codec, policy, size, attempts[1..], limit)
    else
      match EncodedAs(codec, size, attempts[0], limit)
      case Broken => GivenUp
      case TooLong => Try(codec, policy, size, attempts[1..], limit)
      case Fits(n) => Found(Part(attempts[0].media, n, size))
  }

  function Smaller(n: nat): nat {
    if n * 3 / 4 < 1 then 1 else n * 3 / 4
  }

  function Shrink(codec: Codec, policy: Policy, size: Size, attempts: seq<Attempt>, limit: nat,
                  rounds: nat): Option<Part>
    decreases rounds
  {
    if rounds == 0 then None
    else
      match Try(codec, policy, size, attempts, limit)
      case Found(part) => Some(part)
      case GivenUp => None
      case NotYet =>
        if size == (1, 1) then None
        else Shrink(codec, policy, codec.resize(size, (Smaller(size.0), Smaller(size.1))), attempts, limit, rounds - 1)
  }

  function Min(a: nat, b: nat): nat {
    if a < b then a else b
  }

  function SaturatingSub(a: nat, b: nat): nat {
    if a < b then 0 else a - b
  }

  /** The checks of a frame by itself. */
  predicate Admissible(u: Upload, policy: Policy, limits: Limits) {
    u.media in policy.mediaTypes && u.bytes.Some? && 0 < u.bytes.value <= limits.imageBytes &&
    u.matches && u.header.Some? && u.header.value.0 > 0 && u.header.value.1 > 0 && u.memory <= DECODE_MEMORY_BYTES
  }

  predicate AsItIs(u: Upload, policy: Policy, share: nat) {
    u.bytes.Some? && u.header.Some? && u.bytes.value <= share &&
    u.header.value.0 <= policy.maxWidth && u.header.value.1 <= policy.maxHeight
  }

  function Reduced(u: Upload, policy: Policy, codec: Codec, share: nat): Option<Part> {
    if u.decoded.None? then None
    else
      var box := (Min(policy.maxWidth, u.decoded.value.0), Min(policy.maxHeight, u.decoded.value.1));
      Shrink(codec, policy, codec.resize(u.decoded.value, box), Attempts(u.alpha, u.media), share, ROUNDS)
  }

  /** What becomes of a frame that may use `share` bytes, whatever else is in the request. */
  function Alone(u: Upload, policy: Policy, limits: Limits, codec: Codec, share: nat): Option<Part> {
    if !Admissible(u, policy, limits) || share == 0 || policy.maxWidth == 0 || policy.maxHeight == 0 then None
    else if AsItIs(u, policy, share) then Some(Part(u.media, u.bytes.value, u.header.value))
    else Reduced(u, policy, codec, share)
  }

  predicate WithinPolicy(part: Part, policy: Policy, share: nat) {
    part.media in policy.mediaTypes && 0 < part.bytes <= share &&
    1 <= part.size.0 <= policy.maxWidth && 1 <= part.size.1 <= policy.maxHeight
  }

  lemma {:induction false} TryIsWithinPolicy(codec: Codec, policy: Policy, size: Size, attempts: seq<Attempt>,
                                             limit: nat)
    requires Sound(codec) && 1 <= size.0 <= policy.maxWidth && 1 <= size.1 <= policy.maxHeight
    ensures var s := Try(codec, policy, size, attempts, limit); s.Found? ==> WithinPolicy(s.part, policy, limit)
  {
    if attempts != [] {
      TryIsWithinPolicy(codec, policy, size, attempts[1..], limit);
    }
  }

  lemma {:induction false} ShrinkIsWithinPolicy(codec: Codec, policy: Policy, size: Size, attempts: seq<Attempt>,
                                                limit: nat, rounds: nat)
    requires Sound(codec) && 1 <= size.0 <= policy.maxWidth && 1 <= size.1 <= policy.maxHeight
    ensures var r := Shrink(codec, policy, size, attempts, limit, rounds); r.Some? ==>
              WithinPolicy(r.value, policy, limit)
    decreases rounds
  {
    if rounds > 0 {
      TryIsWithinPolicy(codec, policy, size, attempts, limit);
      var box := (Smaller(size.0), Smaller(size.1));
      var next := codec.resize(size, box);
      assert 1 <= box.0 <= size.0 && 1 <= box.1 <= size.1;
      ShrinkIsWithinPolicy(codec, policy, next, attempts, limit, rounds - 1);
    }
  }

  lemma ReducedIsWithinPolicy(u: Upload, policy: Policy, codec: Codec, share: nat)
    requires Sound(codec) && Canonical(u) && policy.maxWidth > 0 && policy.maxHeight > 0
    ensures var r := Reduced(u, policy, codec, share); r.Some? ==> WithinPolicy(r.value, policy, share)
  {
    if u.decoded.Some? {
      var box := (Min(policy.maxWidth, u.decoded.value.0), Min(policy.maxHeight, u.decoded.value.1));
      ShrinkIsWithinPolicy(codec, policy, codec.resize(u.decoded.value, box), Attempts(u.alpha, u.media), share,
                           ROUNDS);
    }
  }

  /** A frame within the profile and its share goes on unchanged. */
  lemma WithinPolicyIsKept(u: Upload, policy: Policy, limits: Limits, codec: Codec, share: nat)
    requires Admissible(u, policy, limits)
    requires WithinPolicy(Part(u.media, u.bytes.value, u.header.value), policy, share)
    ensures Alone(u, policy, limits, codec, share) == Some(Part(u.media, u.bytes.value, u.header.value))
  {
  }

  /** What is changed ends within both. */
  lemma AloneIsWithinPolicy(u: Upload, policy: Policy, limits: Limits, codec: Codec, share: nat)
    requires Sound(codec) && Canonical(u)
    ensures var r := Alone(u, policy, limits, codec, share);
            r.Some? ==> Admissible(u, policy, limits) && WithinPolicy(r.value, policy, share)
  {
    if policy.maxWidth > 0 && policy.maxHeight > 0 {
      ReducedIsWithinPolicy(u, policy, codec, share);
    }
  }

  /** Lossless first where it matters, then ever smaller formats. */
  lemma AttemptsAre(media: string)
    ensures Attempts(true, media) == [Attempt("image/png", 0), Attempt("image/webp", 0)]
    ensures Attempts(false, "image/png") ==
            [Attempt("image/png", 0), Attempt("image/jpeg", 90), Attempt("image/jpeg", 80), Attempt("image/webp", 0)]
    ensures media != "image/png" ==>
              Attempts(false, media) ==
              [Attempt("image/jpeg", 90), Attempt("image/jpeg", 80), Attempt("image/webp", 0)]
  {
  }

  /** Three quarters, rounded down, and never nothing. */
  lemma SmallerIs(n: nat)
    ensures n >= 2 ==> 4 * Smaller(n) <= 3 * n < 4 * Smaller(n) + 4
    ensures n <= 1 ==> Smaller(n) == 1
  {
  }

  function Pixels(u: Upload): nat {
    if u.header.Some? then u.header.value.0 * u.header.value.1 else 0
  }

  // ---- The shared budget ----

  class ImageBudget {
    var count: nat
    var bytes: nat
    var sourcePixels: nat

    constructor ()
      ensures count == 0 && bytes == 0 && sourcePixels == 0
    {
      count, bytes, sourcePixels := 0, 0, 0;
    }

    /** Every earlier frame has kept to its share. */
    predicate Shared(share: nat)
      reads this
    {
      bytes <= count * share
    }
  }

  /** A frame that another one could still follow sees its whole share. */
  lemma ShareIsLeft(policy: Policy, share: nat, frames: nat, count: nat, bytes: nat)
    requires count < frames && frames * share <= policy.maxTotalBytes && bytes <= count * share
    ensures bytes + share <= policy.maxTotalBytes
  {
    assert (count + 1) * share <= frames * share;
  }

  /** The strict check of the engine budget, with the frame's policy. */
  method DecodeImage(part: Part, encodedLength: nat, matches: bool, policy: Policy, share: nat, budget: ImageBudget)
    returns (r: Option<Part>)
    modifies budget
    ensures r.Some? <==>
            part.media in policy.mediaTypes && encodedLength <= (share + 2) / 3 * 4 + 4 &&
            0 < part.bytes <= share && old(budget.count) < policy.maxCount &&
            old(budget.bytes) + part.bytes <= policy.maxTotalBytes && matches &&
            1 <= part.size.0 <= policy.maxWidth && 1 <= part.size.1 <= policy.maxHeight
    ensures r.Some? ==> r.value == part
    ensures budget.sourcePixels == old(budget.sourcePixels)
    ensures budget.count == old(budget.count) + (if r.Some? then 1 else 0)
    ensures budget.bytes == old(budget.bytes) + (if r.Some? then part.bytes else 0)
  {
    if part.media !in policy.mediaTypes || encodedLength > (share + 2) / 3 * 4 + 4 {
      return None;
    }
    if part.bytes == 0 || part.bytes > share || budget.count >= policy.maxCount ||
       budget.bytes + part.bytes > policy.maxTotalBytes {
      return None;
    }
    if !matches || part.size.0 == 0 || part.size.1 == 0 || part.size.0 > policy.maxWidth ||
       part.size.1 > policy.maxHeight {
      return None;
    }
    budget.count := budget.count + 1;
    budget.bytes := budget.bytes + part.bytes;
    return Some(part);
  }

  /** The size of the image after `n` turns of the shrink loop. */
  function SizeAt(codec: Codec, first: Size, n: nat): Size {
    if n == 0 then first
    else
      var size := SizeAt(codec, first, n - 1);
      codec.resize(size, (Smaller(size.0), Smaller(size.1)))
  }

  /** None of the first `n` encodings that the profile admits fits at this size. */
  predicate NoneFits(codec: Codec, policy: Policy, size: Size, attempts: seq<Attempt>, limit: nat, n: nat)
    requires n <= |attempts|
  {
    forall j | 0 <= j < n :: attempts[j].media in policy.mediaTypes ==>
                               EncodedAs(codec, size, attempts[j], limit).TooLong?
  }

  /** Nothing fits at any of the first `n` sizes, and none of them is the smallest. */
  ghost predicate AllTooLong(codec: Codec, policy: Policy, first: Size, attempts: seq<Attempt>, limit: nat, n: nat) {
    forall k: nat | k < n ::
      NoneFits(codec, policy, SizeAt(codec, first, k), attempts, limit, |attempts|) && SizeAt(codec, first, k) != (1, 1)
  }

  /** Encoding `i` at size `n` is the first to be tried that is not too long. */
  ghost predicate FirstToSettle(codec: Codec, policy: Policy, first: Size, attempts: seq<Attempt>, limit: nat,
                                n: nat, i: nat)
  {
    i < |attempts| && attempts[i].media in policy.mediaTypes &&
    !EncodedAs(codec, SizeAt(codec, first, n), attempts[i], limit).TooLong? &&
    NoneFits(codec, policy, SizeAt(codec, first, n), attempts, limit, i) &&
    AllTooLong(codec, policy, first, attempts, limit, n)
  }

  /** The encodings at one size. */
  method TryAll(codec: Codec, policy: Policy, size: Size, attempts: seq<Attempt>, limit: nat)
    returns (r: Search, i: nat)
    ensures r == Try(codec, policy, size, attempts, limit)
    ensures i <= |attempts| && NoneFits(codec, policy, size, attempts, limit, i)
    ensures r.NotYet? ==> i == |attempts|
    ensures !r.NotYet? ==>
              i < |attempts| && attempts[i].media in policy.mediaTypes &&
              EncodedAs(codec, size, attempts[i], limit) == (if r.Found? then Fits(r.part.bytes) else Broken)
    ensures r.Found? ==> r.part == Part(attempts[i].media, r.part.bytes, size)
  {
    i := 0;
    while i < |attempts|
      invariant 0 <= i <= |attempts| && NoneFits(codec, policy, size, attempts, limit, i)
      invariant Try(codec, policy, size, attempts, limit) == Try(codec, policy, size, attempts[i..], limit)
    {
      assert attempts[i..][1..] == attempts[i + 1..];
      if attempts[i].media in policy.mediaTypes {
        var e := Encode(codec, size, attempts[i], limit);
        match e {
          case Broken => return GivenUp, i;
          case TooLong =>
          case Fits(n) => return Found(Part(attempts[i].media, n, size)), i;
        }
      }
      i := i + 1;
    }
    return NotYet, i;
  }

  /** The shrink loop of `prepare_image`: the first encoding, in order of size and format,
      that is not too long, if it could be made at all. */
  method FindFit(codec: Codec, policy: Policy, first: Size, attempts: seq<Attempt>, limit: nat, rounds: nat)
    returns (r: Option<Part>, ghost round: nat, ghost index: nat)
    ensures r == Shrink(codec, policy, first, attempts, limit, rounds)
    ensures r.Some? ==>
              round < rounds && FirstToSettle(codec, policy, first, attempts, limit, round, index) &&
              EncodedAs(codec, SizeAt(codec, first, round), attempts[index], limit) == Fits(r.value.bytes) &&
              r.value == Part(attempts[index].media, r.value.bytes, SizeAt(codec, first, round))
    ensures r.None? ==>
              (FirstToSettle(codec, policy, first, attempts, limit, round, index) &&
               EncodedAs(codec, SizeAt(codec, first, round), attempts[index], limit).Broken?) ||
              (AllTooLong(codec, policy, first, attempts, limit, round) &&
               (round == rounds ||
                (SizeAt(codec, first, round) == (1, 1) &&
                 NoneFits(codec, policy, (1, 1), attempts, limit, |attempts|))))
  {
    var size := first;
    round, index := 0, 0;
    var n := 0;
    while n < rounds
      invariant 0 <= n <= rounds && round == n && size == SizeAt(codec, first, n)
      invariant AllTooLong(codec, policy, first, attempts, limit, n)
      invariant Shrink(codec, policy, first, attempts, limit, rounds) ==
                Shrink(codec, policy, size, attempts, limit, rounds - n)
    {
      var found, i := TryAll(codec, policy, size, attempts, limit);
      index := i;
      match found {
        case Found(part) => return Some(part), round, index;
        case GivenUp => return None, round, index;
        case NotYet =>
      }
      if size == (1, 1) {
        return None, round, index;
      }
      size := codec.resize(size, (Smaller(size.0), Smaller(size.1)));
      n := n + 1;
      round := n;
    }
    return None, round, index;
  }

  /** `prepare_image`, for one of `frames` frames that share the budget equally: what happens
      to it does not depend on the earlier ones, except through the pixel count. */
  method PrepareImage(u: Upload, policy: Policy, limits: Limits, codec: Codec, share: nat, budget: ImageBudget,
                      ghost frames: nat)
    returns (r: Option<Part>)
    requires Sound(codec) && Canonical(u)
    requires frames <= policy.maxCount && frames * share <= policy.maxTotalBytes
    requires budget.count < frames && budget.Shared(share) && budget.sourcePixels <= limits.imagePixels
    modifies budget
    ensures r == if old(budget.sourcePixels) + Pixels(u) <= limits.imagePixels
                 then Alone(u, policy, limits, codec, share) else None
    ensures r.Some? ==> budget.sourcePixels == old(budget.sourcePixels) + Pixels(u)
    ensures r.Some? ==> budget.Shared(share) && budget.count == old(budget.count) + 1
    ensures r.Some? ==> budget.bytes == old(budget.bytes) + r.value.bytes <= policy.maxTotalBytes
  {
    ShareIsLeft(policy, share, frames, budget.count, budget.bytes);
    if u.encodedLength > (limits.imageBytes + 2) / 3 * 4 {
      TooLongText(u, limits);
      return None;
    }
    if !Admissible(u, policy, limits) || Pixels(u) > limits.imagePixels - budget.sourcePixels {
      return None;
    }
    budget.sourcePixels := budget.sourcePixels + Pixels(u);
    var available := Min(SaturatingSub(policy.maxTotalBytes, budget.bytes), share);
    assert available == share;
    if available == 0 || policy.maxWidth == 0 || policy.maxHeight == 0 {
      return None;
    }
    r := Retain(u, policy, codec, share, available, budget);
  }

  /** Keep the frame as it is, or the first smaller form that fits. The strict check at the
      end never refuses what was prepared. */
  method Retain(u: Upload, policy: Policy, codec: Codec, share: nat, available: nat, budget: ImageBudget)
    returns (r: Option<Part>)
    requires Sound(codec) && Canonical(u) && u.media in policy.mediaTypes && u.matches
    requires u.bytes.Some? && u.bytes.value > 0 && u.header.Some? && u.header.value.0 > 0 && u.header.value.1 > 0
    requires available == share && policy.maxWidth > 0 && policy.maxHeight > 0
    requires budget.count < policy.maxCount && budget.bytes + share <= policy.maxTotalBytes && budget.Shared(share)
    modifies budget
    ensures r == if AsItIs(u, policy, share) then Some(Part(u.media, u.bytes.value, u.header.value))
                 else Reduced(u, policy, codec, share)
    ensures budget.sourcePixels == old(budget.sourcePixels)
    ensures r.Some? ==> budget.Shared(share) && budget.count == old(budget.count) + 1
    ensures r.Some? ==> budget.bytes == old(budget.bytes) + r.value.bytes <= policy.maxTotalBytes
  {
    if AsItIs(u, policy, available) {
      LengthChecksAreSafe(u.bytes.value, share);
      r := DecodeImage(Part(u.media, u.bytes.value, u.header.value), u.encodedLength, u.matches, policy, share, budget);
    } else {
      if u.decoded.None? {
        return None;
      }
      var box := (Min(policy.maxWidth, u.decoded.value.0), Min(policy.maxHeight, u.decoded.value.1));
      ghost var round, index: nat;
      var found;
      found, round, index :=
        FindFit(codec, policy, codec.resize(u.decoded.value, box), Attempts(u.alpha, u.media), available, ROUNDS);
      if found.None? {
        return None;
      }
      ReducedIsWithinPolicy(u, policy, codec, share);
      LengthChecksAreSafe(found.value.bytes, share);
      r := DecodeImage(found.value, Base64Length(found.value.bytes), true, policy, share, budget);
    }
    OneMoreShare(old(budget.bytes), old(budget.count), share);
  }

  lemma OneMoreShare(bytes: nat, count: nat, share: nat)
    requires bytes <= count * share
    ensures bytes + share <= (count + 1) * share
  {
  }

  lemma TooLongText(u: Upload, limits: Limits)
    requires Canonical(u) && u.encodedLength > (limits.imageBytes + 2) / 3 * 4
    ensures u.bytes.None? || u.bytes.value > limits.imageBytes
  {
    if u.bytes.Some? && u.bytes.value <= limits.imageBytes {
      LengthChecksAreSafe(u.bytes.value, limits.imageBytes);
    }
  }

  // ---- The whole request ----

  function SumBy(uploads: seq<Upload>, f: Upload -> nat): nat {
    if uploads == [] then 0 else SumBy(uploads[..|uploads| - 1], f) + f(uploads[|uploads| - 1])
  }

  function AllPixels(uploads: seq<Upload>): nat {
    SumBy(uploads, Pixels)
  }

  function AllBytes(parts: seq<Part>): nat {
    if parts == [] then 0 else AllBytes(parts[..|parts| - 1]) + parts[|parts| - 1].bytes
  }

  lemma {:induction false} SumByGrows(uploads: seq<Upload>, f: Upload -> nat, n: nat)
    requires n <= |uploads|
    ensures SumBy(uploads[..n], f) <= SumBy(uploads, f)
    decreases |uploads|
  {
    if n < |uploads| {
      SumByGrows(uploads[..|uploads| - 1], f, n);
      assert uploads[..|uploads| - 1][..n] == uploads[..n];
    } else {
      assert uploads[..n] == uploads;
    }
  }

  /** The equal share of each frame. */
  function Share(policy: Policy, frames: nat): nat {
    if frames == 0 then policy.maxBytes else Min(policy.maxBytes, policy.maxTotalBytes / frames)
  }

  /** What a part adds to the rewritten request: its media type and its bytes in base64. */
  function PartLength(part: Part): nat {
    |part.media| + Base64Length(part.bytes)
  }

  /** The same of a frame, by what becomes of it. */
  function FrameLength(policy: Policy, limits: Limits, codec: Codec, share: nat): Upload -> nat {
    (u: Upload) => var part := Alone(u, policy, limits, codec, share); if part.Some? then PartLength(part.value) else 0
  }

  function AllLengths(parts: seq<Part>): nat {
    if parts == [] then 0 else AllLengths(parts[..|parts| - 1]) + PartLength(parts[|parts| - 1])
  }

  /** A request of `length` bytes whose rewritten form has `text` bytes besides the images. */
  datatype Request = Request(uploads: seq<Upload>, length: nat, text: nat)

  /** Every frame fits its share on its own, the pixels fit together, and so does the
      rewritten request. */
  predicate FramesFit(q: Request, policy: Policy, limits: Limits, codec: Codec) {
    var share := Share(policy, |q.uploads|);
    |q.uploads| <= policy.maxCount && AllPixels(q.uploads) <= limits.imagePixels &&
    (forall u | u in q.uploads :: Alone(u, policy, limits, codec, share).Some?) &&
    q.text + SumBy(q.uploads, FrameLength(policy, limits, codec, share)) <= MAX_COMPLETION_BODY_BYTES
  }

  predicate GoesThrough(q: Request, policy: Option<Policy>, limits: Limits, codec: Codec) {
    Supported(limits) && q.length <= limits.requestBytes &&
    if q.uploads == [] then q.text <= MAX_COMPLETION_BODY_BYTES
    else policy.Some? && FramesFit(q, policy.value, limits, codec)
  }

  /** A request without images goes through exactly within these numbers. */
  lemma TextGoesThroughIff(q: Request, policy: Option<Policy>, limits: Limits, codec: Codec)
    requires q.uploads == []
    ensures GoesThrough(q, policy, limits, codec) <==>
            1 <= limits.requestBytes <= 67108864 && 1 <= limits.imageBytes <= 33554432 &&
            1 <= limits.imagePixels <= 32000000 && 1 <= limits.imageDimension <= 16384 &&
            1 <= limits.maxParallel <= 4 && q.length <= limits.requestBytes && q.text <= 8388608
  {
  }

  /** A single frame with any of these faults stops the request. */
  lemma FaultyFrameIsRefused(q: Request, u: Upload, policy: Policy, limits: Limits, codec: Codec)
    requires u in q.uploads
    requires u.media !in policy.mediaTypes || u.bytes.None? || u.bytes.value == 0 ||
             u.bytes.value > limits.imageBytes || !u.matches || u.header.None? || u.header.value.0 == 0 ||
             u.header.value.1 == 0 || u.memory > 134217728 || policy.maxWidth == 0 || policy.maxHeight == 0
    ensures !GoesThrough(q, Some(policy), limits, codec)
  {
    assert Alone(u, policy, limits, codec, Share(policy, |q.uploads|)).None?;
  }

  /** The parts of the frames so far. */
  predicate Prepared(uploads: seq<Upload>, parts: seq<Part>, policy: Policy, limits: Limits, codec: Codec, share: nat) {
    |parts| == |uploads| &&
    forall i | 0 <= i < |uploads| :: Some(parts[i]) == Alone(uploads[i], policy, limits, codec, share)
  }

  lemma OneMorePart(uploads: seq<Upload>, parts: seq<Part>, policy: Policy, limits: Limits, codec: Codec, share: nat,
                    u: Upload, part: Part)
    requires Prepared(uploads, parts, policy, limits, codec, share)
    requires Some(part) == Alone(u, policy, limits, codec, share)
    ensures Prepared(uploads + [u], parts + [part], policy, limits, codec, share)
    ensures AllPixels(uploads + [u]) == AllPixels(uploads) + Pixels(u)
    ensures AllBytes(parts + [part]) == AllBytes(parts) + part.bytes
    ensures AllLengths(parts + [part]) == AllLengths(parts) + PartLength(part)
    ensures SumBy(uploads + [u], FrameLength(policy, limits, codec, share)) ==
            SumBy(uploads, FrameLength(policy, limits, codec, share)) + PartLength(part)
  {
    assert (uploads + [u])[..|uploads|] == uploads && (parts + [part])[..|parts|] == parts;
  }

  lemma PreparedFit(q: Request, parts: seq<Part>, policy: Policy, limits: Limits, codec: Codec)
    requires Prepared(q.uploads, parts, policy, limits, codec, Share(policy, |q.uploads|))
    requires |q.uploads| <= policy.maxCount && AllPixels(q.uploads) <= limits.imagePixels
    ensures FramesFit(q, policy, limits, codec) <==>
            q.text + SumBy(q.uploads, FrameLength(policy, limits, codec, Share(policy, |q.uploads|)))
            <= MAX_COMPLETION_BODY_BYTES
  {
    forall u | u in q.uploads
      ensures Alone(u, policy, limits, codec, Share(policy, |q.uploads|)).Some?
    {
      var i :| 0 <= i < |q.uploads| && q.uploads[i] == u;
      assert Some(parts[i]) == Alone(q.uploads[i], policy, limits, codec, Share(policy, |q.uploads|));
    }
  }

  lemma PixelsUpTo(uploads: seq<Upload>, i: nat)
    requires i < |uploads|
    ensures AllPixels(uploads[..i]) + Pixels(uploads[i]) <= AllPixels(uploads)
  {
    SumByGrows(uploads, Pixels, i + 1);
    assert uploads[..i + 1][..i] == uploads[..i];
  }

  /** The loop over the frames. */
  method PrepareImages(uploads: seq<Upload>, policy: Policy, limits: Limits, codec: Codec)
    returns (r: Option<seq<Part>>)
    requires Sound(codec) && (forall u | u in uploads :: Canonical(u)) && |uploads| <= policy.maxCount
    ensures r.Some? <==>
            AllPixels(uploads) <= limits.imagePixels &&
            forall u | u in uploads :: Alone(u, policy, limits, codec, Share(policy, |uploads|)).Some?
    ensures r.Some? ==> Prepared(uploads, r.value, policy, limits, codec, Share(policy, |uploads|))
    ensures r.Some? ==> AllBytes(r.value) <= policy.maxTotalBytes
    ensures r.Some? ==>
              AllLengths(r.value) == SumBy(uploads, FrameLength(policy, limits, codec, Share(policy, |uploads|)))
  {
    var share := Share(policy, |uploads|);
    if |uploads| > 0 {
      SharesFit(policy, |uploads|);
    }
    var budget := new ImageBudget();
    var parts: seq<Part> := [];
    for i := 0 to |uploads|
      invariant fresh(budget) && i == budget.count && budget.Shared(share)
      invariant Prepared(uploads[..i], parts, policy, limits, codec, share)
      invariant budget.sourcePixels == AllPixels(uploads[..i]) <= limits.imagePixels
      invariant budget.bytes == AllBytes(parts) <= policy.maxTotalBytes
      invariant AllLengths(parts) == SumBy(uploads[..i], FrameLength(policy, limits, codec, share))
    {
      assert uploads[i] in uploads;
      PixelsUpTo(uploads, i);
      var part := PrepareImage(uploads[i], policy, limits, codec, share, budget, |uploads|);
      if part.None? {
        return None;
      }
      OneMorePart(uploads[..i], parts, policy, limits, codec, share, uploads[i], part.value);
      assert uploads[..i] + [uploads[i]] == uploads[..i + 1];
      parts := parts + [part.value];
    }
    assert uploads[..|uploads|] == uploads;
    PreparedFit(Request(uploads, 0, 0), parts, policy, limits, codec);
    return Some(parts);
  }

  /** `normalize_image_request`: a request goes through exactly if the limits are supported and
      kept, there are not too many frames, their pixels and the rewritten request fit, and
      every frame fits its share on its own. So no frame is starved by an earlier one. */
  method NormalizeImages(q: Request, policy: Option<Policy>, limits: Limits, codec: Codec)
    returns (r: Option<seq<Part>>)
    requires Sound(codec) && forall u | u in q.uploads :: Canonical(u)
    ensures r.Some? <==> GoesThrough(q, policy, limits, codec)
    ensures r.Some? && q.uploads == [] ==> r.value == []
    ensures r.Some? && q.uploads != [] ==>
              Prepared(q.uploads, r.value, policy.value, limits, codec, Share(policy.value, |q.uploads|)) &&
              AllBytes(r.value) <= policy.value.maxTotalBytes &&
              q.text + AllLengths(r.value) <= MAX_COMPLETION_BODY_BYTES
  {
    if !Supported(limits) || q.length > limits.requestBytes {
      return None;
    }
    if q.uploads == [] {
      return if q.text <= MAX_COMPLETION_BODY_BYTES then Some([]) else None;
    }
    if policy.None? || |q.uploads| > policy.value.maxCount {
      return None;
    }
    var parts := PrepareImages(q.uploads, policy.value, limits, codec);
    if parts.None? {
      return None;
    }
    PreparedFit(q, parts.value, policy.value, limits, codec);
    return if q.text + AllLengths(parts.value) <= MAX_COMPLETION_BODY_BYTES then parts else None;
  }

  /** The shares fit together, and no larger ones would. */
  lemma SharesFit(policy: Policy, frames: nat)
    requires frames > 0
    ensures frames * Share(policy, frames) <= policy.maxTotalBytes
    ensures Share(policy, frames) <= policy.maxBytes
    ensures Share(policy, frames) == policy.maxBytes || frames * (Share(policy, frames) + 1) > policy.maxTotalBytes
  {
    var q := policy.maxTotalBytes / frames;
    assert policy.maxTotalBytes == frames * q + policy.maxTotalBytes % frames;
    assert frames * q <= policy.maxTotalBytes < frames * (q + 1);
    assert frames * Share(policy, frames) <= frames * q;
  }

  lemma {:induction false} SumByJoins(a: seq<Upload>, b: seq<Upload>, f: Upload -> nat)
    ensures SumBy(a + b, f) == SumBy(a, f) + SumBy(b, f)
  {
    if b == [] {
      assert a + b == a;
    } else {
      SumByJoins(a, b[..|b| - 1], f);
      assert (a + b)[..|a + b| - 1] == a + b[..|b| - 1];
    }
  }

  /** One frame in the middle. */
  lemma SumByAround(front: seq<Upload>, u: Upload, back: seq<Upload>, f: Upload -> nat)
    ensures SumBy(front + [u] + back, f) == SumBy(front + back, f) + f(u)
  {
    SumByJoins(front, back, f);
    SumByJoins(front + [u], back, f);
    assert (front + [u])[..|front|] == front;
  }

  lemma SameFrames(rest: seq<Upload>, u: Upload, front: seq<Upload>, back: seq<Upload>)
    requires multiset(rest + [u]) == multiset(front + [u] + back)
    ensures multiset(rest) == multiset(front + back)
  {
    assert multiset(rest + [u]) - multiset{u} == multiset(rest);
    assert multiset(front + [u] + back) - multiset{u} == multiset(front + back);
  }

  lemma {:induction false} SumInAnyOrder(a: seq<Upload>, b: seq<Upload>, f: Upload -> nat)
    requires multiset(a) == multiset(b)
    ensures SumBy(a, f) == SumBy(b, f)
    decreases |a|
  {
    if a == [] {
      assert |multiset(b)| == 0;
    } else {
      var rest, u := a[..|a| - 1], a[|a| - 1];
      assert a == rest + [u] && u in multiset(b);
      var j: nat :| j < |b| && b[j] == u;
      var front, back := b[..j], b[j + 1..];
      assert b == front + [u] + back;
      SameFrames(rest, u, front, back);
      SumInAnyOrder(rest, front + back, f);
      SumByAround(front, u, back, f);
    }
  }

  /** In any order of the frames the same requests go through, with the same share for each. */
  lemma OrderDoesNotMatter(q: Request, b: seq<Upload>, policy: Option<Policy>, limits: Limits, codec: Codec)
    requires multiset(q.uploads) == multiset(b)
    ensures GoesThrough(q, policy, limits, codec) == GoesThrough(q.(uploads := b), policy, limits, codec)
    ensures |q.uploads| == |b|
  {
    var a := q.uploads;
    assert |a| == |multiset(a)| == |multiset(b)| == |b|;
    SumInAnyOrder(a, b, Pixels);
    assert forall u: Upload :: u in a <==> u in multiset(a);
    assert forall u: Upload :: u in b <==> u in multiset(b);
    if policy.Some? {
      SumInAnyOrder(a, b, FrameLength(policy.value, limits, codec, Share(policy.value, |a|)));
    }
  }
}
