/**
 * A chromosome: a Python dict from event id to an optional slot (venue id,
 * UTC start, UTC end), kept as an association list in insertion order.
 */
module Genome {
  import opened Wrappers

  datatype Slot = Slot(venue: string, start: int, end: int)
  datatype Gene = Gene(event: string, slot: Option<Slot>)
  type Chromosome = seq<Gene>

  function Keys(c: Chromosome): (ks: seq<string>)
    ensures |ks| == |c|
    ensures forall k :: 0 <= k < |c| ==> ks[k] == c[k].event
  {
    seq(|c|, k requires 0 <= k < |c| => c[k].event)
  }

  predicate Distinct(s: seq<string>) {
    forall i, j :: 0 <= i < j < |s| ==> s[i] != s[j]
  }

  /** Dict keys are unique. */
  predicate WellFormed(c: Chromosome) {
    Distinct(Keys(c))
  }

  /** `chromosome.get(id)`: None both for a missing key and a None value. */
  function Get(c: Chromosome, id: string): (r: Option<Slot>)
    ensures r.Some? ==> Gene(id, r) in c
    ensures id !in Keys(c) ==> r.None?
  {
    if c == [] then None
    else if c[0].event == id then c[0].slot
    else Get(c[1..], id)
  }

  /** `chromosome[id] = s`: replaces the value in place, or appends a new key. */
  function Put(c: Chromosome, id: string, s: Option<Slot>): (r: Chromosome)
    ensures Keys(r) == if id in Keys(c) then Keys(c) else Keys(c) + [id]
  {
    if c == [] then [Gene(id, s)]
    else if c[0].event == id then [Gene(id, s)] + c[1..]
    else
      assert Keys(c) == [c[0].event] + Keys(c[1..]);
      var r := [c[0]] + Put(c[1..], id, s);
      assert Keys(r) == [c[0].event] + Keys(Put(c[1..], id, s));
      r
  }

  /** After `Put`, the key reads the new value and every other key reads as before. */
  lemma {:induction false} GetPut(c: Chromosome, id: string, s: Option<Slot>, other: string)
    ensures Get(Put(c, id, s), id) == s
    ensures other != id ==> Get(Put(c, id, s), other) == Get(c, other)
  {
    if c != [] && c[0].event != id {
      GetPut(c[1..], id, s, other);
    }
  }

  /** `Put` reads the new value at its key and leaves every other key alone. */
  lemma GetPutAll(c: Chromosome, id: string, s: Option<Slot>)
    ensures Get(Put(c, id, s), id) == s
    ensures forall other :: other != id ==> Get(Put(c, id, s), other) == Get(c, other)
  {
    forall other | other != id
      ensures Get(Put(c, id, s), other) == Get(c, other)
    {
      GetPut(c, id, s, other);
    }
    GetPut(c, id, s, id);
  }

  /** Every gene after `Put` is the new one or was there before. */
  lemma {:induction false} PutGenes(c: Chromosome, id: string, s: Option<Slot>)
    ensures forall g :: g in Put(c, id, s) ==> g == Gene(id, s) || g in c
  {
    if c != [] && c[0].event != id {
      PutGenes(c[1..], id, s);
    }
  }

  lemma PutWellFormed(c: Chromosome, id: string, s: Option<Slot>)
    requires WellFormed(c)
    ensures WellFormed(Put(c, id, s))
  {
  }

  /** In a well-formed chromosome the gene of a key is the one `Get` reads. */
  lemma GetAt(c: Chromosome, k: int)
    requires WellFormed(c) && 0 <= k < |c|
    ensures Get(c, c[k].event) == c[k].slot
  {
    if k > 0 {
      assert Keys(c[1..]) == Keys(c)[1..];
      GetAt(c[1..], k - 1);
    }
  }
}
