/**
 * The text-to-ids pipeline of the neural path: truncating tokenisation,
 * the vocabulary with its two reserved entries and its unknown-token
 * default, and the right-padding encoder.  The tokenizer and the table
 * built from the training split are parameters: only their shape matters.
 */
module Encoding {
  import opened Wrappers

  type Token = string

  /** The two reserved entries the vocabulary is built with. */
  const UnkToken: Token := "<unk>"
  const PadToken: Token := "<pad>"

  /** A vocabulary whose default index has been set: a string-to-index table and the index a miss returns. */
  datatype Vocab = Vocab(stoi: map<Token, nat>, defaultIndex: nat)

  /** What the setup of the vocabulary leaves behind for the encoder to read. */
  datatype Encoder = Encoder(vocab: Vocab, unkIndex: nat, padIndex: nat, maxLen: nat)

  /** Index of a token; a miss returns the default instead of failing. */
  function Lookup(v: Vocab, t: Token): nat
  {
    if t in v.stoi then v.stoi[t] else v.defaultIndex
  }

  /** The encoder state is the one the setup produces from the table `stoi`. */
  ghost predicate Configured(e: Encoder)
  {
    UnkToken in e.vocab.stoi && PadToken in e.vocab.stoi &&
    e.unkIndex == e.vocab.stoi[UnkToken] &&
    e.padIndex == e.vocab.stoi[PadToken] &&
    e.vocab.defaultIndex == e.unkIndex
  }

  /**
   * Reads the indices of the two reserved tokens (both lookups raise when
   * the token is absent, since no default is set yet) and then makes the
   * unknown index the default of every lookup.
   */
  function SetUp(stoi: map<Token, nat>, maxLen: nat): (r: Option<Encoder>)
    ensures r.Some? <==> UnkToken in stoi && PadToken in stoi
    ensures r.Some? ==> Configured(r.value) && r.value.vocab.stoi == stoi && r.value.maxLen == maxLen
    ensures r.Some? ==> forall t :: t !in stoi ==> Lookup(r.value.vocab, t) == r.value.unkIndex
  {
    if UnkToken in stoi && PadToken in stoi then
      var unk := stoi[UnkToken];
      Some(Encoder(Vocab(stoi, unk), unk, stoi[PadToken], maxLen))
    else
      None
  }

  /** A token missing from the table is encoded as the unknown index, and no lookup leaves the table's indices. */
  lemma UnknownTokenFallback(e: Encoder, t: Token)
    requires Configured(e)
    ensures t !in e.vocab.stoi ==> Lookup(e.vocab, t) == e.unkIndex
    ensures t in e.vocab.stoi ==> Lookup(e.vocab, t) == e.vocab.stoi[t]
    ensures Lookup(e.vocab, t) in e.vocab.stoi.Values
  {
  }

  /** The tokenizer's output cut to at most `maxLen` tokens. */
  function Tokenize(tokenizer: string -> seq<Token>, maxLen: nat, sample: string): (r: seq<Token>)
    ensures r <= tokenizer(sample)
    ensures |r| <= maxLen
    ensures |r| < maxLen ==> r == tokenizer(sample)
  {
    var tokens := tokenizer(sample);
    if |tokens| <= maxLen then tokens else tokens[..maxLen]
  }

  /** Each token mapped through the vocabulary, in order. */
  function LookupAll(v: Vocab, tokens: seq<Token>): (ids: seq<nat>)
    ensures |ids| == |tokens|
    ensures forall i :: 0 <= i < |tokens| ==> ids[i] == Lookup(v, tokens[i])
  {
    if tokens == [] then [] else [Lookup(v, tokens[0])] + LookupAll(v, tokens[1..])
  }

  /** A list of `n` copies of `x`; a count below one gives the empty list. */
  function Repeat(x: nat, n: int): (r: seq<nat>)
    ensures |r| == if n > 0 then n else 0
    ensures forall i :: 0 <= i < |r| ==> r[i] == x
    decreases n
  {
    if n <= 0 then [] else [x] + Repeat(x, n - 1)
  }

  /**
   * The ids of the tokens, right-padded up to `maxLen`.  Nothing is cut:
   * an input longer than `maxLen` gets no padding and keeps its length.
   */
  function TokensToIds(e: Encoder, sample: seq<Token>): (ids: seq<nat>)
    ensures |ids| == if |sample| <= e.maxLen then e.maxLen else |sample|
    ensures forall i :: 0 <= i < |sample| ==> ids[i] == Lookup(e.vocab, sample[i])
    ensures forall i :: |sample| <= i < |ids| ==> ids[i] == e.padIndex
  {
    var ids := LookupAll(e.vocab, sample);
    ids + Repeat(e.padIndex, e.maxLen - |ids|)
  }

  /** The fixed-length guarantee does not belong to the encoder alone: a long input comes out unpadded and as long as it went in. */
  lemma TokensToIdsDoesNotTruncate(e: Encoder, sample: seq<Token>)
    requires |sample| > e.maxLen
    ensures TokensToIds(e, sample) == LookupAll(e.vocab, sample)
    ensures |TokensToIds(e, sample)| > e.maxLen
  {
  }

  /** Tokenise then encode one sentence, as the single-sentence inference helper does before its forward pass. */
  function EncodeSentence(tokenizer: string -> seq<Token>, e: Encoder, sentence: string): (ids: seq<nat>)
    ensures |ids| == e.maxLen
    ensures forall i :: 0 <= i < |ids| && i < |tokenizer(sentence)| ==> ids[i] == Lookup(e.vocab, tokenizer(sentence)[i])
    ensures forall i :: |tokenizer(sentence)| <= i < |ids| ==> ids[i] == e.padIndex
  {
    TokensToIds(e, Tokenize(tokenizer, e.maxLen, sentence))
  }

  /** A sentence without tokens encodes to padding only. */
  lemma EmptySentenceIsAllPadding(tokenizer: string -> seq<Token>, e: Encoder, sentence: string)
    requires tokenizer(sentence) == []
    ensures EncodeSentence(tokenizer, e, sentence) == Repeat(e.padIndex, e.maxLen)
  {
  }
}
