/**
 * `getCadastreFeatureStream`: a factory, called once per sub-stream, that
 * hands out the departments of a private queue one at a time and signals the
 * end of data once the queue is empty.
 */
module FeatureStream {
  import opened Sources

  /**
   * What happens when the per-department pipeline (decompressor, parser and
   * byte source) is built: either it is handed to the callback, or one of the
   * constructors throws and the callback receives the error.
   */
  datatype Construction = Built(source: Source) | Threw

  /**
   * The outcome of one factory call: `cb(null, null)` once the queue is empty,
   * otherwise the department taken off the queue and what its construction did.
   */
  datatype Call = EndOfData | Popped(code: string, construction: Construction)

  /**
   * Building the pipeline for one department. Whether a foreign constructor
   * throws for a given source is not visible here: `throws` supplies it.
   */
  function Construct(layerName: string, baseURL: string, code: string, throws: Source -> bool): (c: Construction)
    ensures c.Built? <==> !throws(Open(LayerURL(baseURL, layerName, code)))
    ensures c.Built? ==> c.source == Open(LayerURL(baseURL, layerName, code))
    ensures c.Built? ==> c.source.RemoteFetch? == IsRemote(LayerURL(baseURL, layerName, code))
  {
    var source := Open(LayerURL(baseURL, layerName, code));
    if throws(source) then Threw else Built(source)
  }

  /** The outcome of the next call when `remaining` is what is left in the queue. */
  function NextCall(layerName: string, baseURL: string, remaining: seq<string>, throws: Source -> bool): (c: Call)
    ensures c.EndOfData? <==> remaining == []
    ensures c.Popped? ==> c.code == remaining[0]
  {
    if remaining == [] then EndOfData
    else Popped(remaining[0], Construct(layerName, baseURL, remaining[0], throws))
  }

  /**
   * The outcomes of successive calls on a factory whose queue is `codes`, up to
   * and including the first end signal.
   */
  function Calls(layerName: string, baseURL: string, codes: seq<string>, throws: Source -> bool): (calls: seq<Call>)
    ensures |calls| == |codes| + 1
    ensures calls[|codes|] == EndOfData
    ensures forall i :: 0 <= i < |codes| ==> calls[i] == Popped(codes[i], Construct(layerName, baseURL, codes[i], throws))
    decreases |codes|
  {
    if codes == [] then [EndOfData]
    else [NextCall(layerName, baseURL, codes, throws)] + Calls(layerName, baseURL, codes[1..], throws)
  }

  /** The departments taken off the queue, in call order. */
  function PoppedCodes(calls: seq<Call>): seq<string>
  {
    if calls == [] then []
    else (if calls[0].Popped? then [calls[0].code] else []) + PoppedCodes(calls[1..])
  }

  lemma {:induction false} PoppedCodesAppend(a: seq<Call>, b: seq<Call>)
    ensures PoppedCodes(a + b) == PoppedCodes(a) + PoppedCodes(b)
    decreases |a|
  {
    if a == [] {
      assert a + b == b;
    } else {
      assert (a + b)[1..] == a[1..] + b;
      PoppedCodesAppend(a[1..], b);
    }
  }

  /**
   * Every department of the queue is handed out exactly once, in queue order,
   * whether or not its pipeline could be built. This is the factory's own
   * behaviour when it is called again after a throw; the stream library that
   * drives it stops calling it once it has received an error, so no failure is
   * isolated to one department.
   */
  lemma {:induction false} CallsHandOutEveryCode(layerName: string, baseURL: string, codes: seq<string>, throws: Source -> bool)
    ensures PoppedCodes(Calls(layerName, baseURL, codes, throws)) == codes
    decreases |codes|
  {
    var calls := Calls(layerName, baseURL, codes, throws);
    if codes == [] {
      assert PoppedCodes(calls[1..]) == [];
    } else {
      CallsHandOutEveryCode(layerName, baseURL, codes[1..], throws);
      assert calls == [calls[0]] + Calls(layerName, baseURL, codes[1..], throws);
      PoppedCodesAppend([calls[0]], Calls(layerName, baseURL, codes[1..], throws));
      assert PoppedCodes([calls[0]]) == [codes[0]];
    }
  }

  /** The factory with its private copy of the department list. */
  class CadastreFeatureStream {
    const layerName: string
    const baseURL: string
    /** The list the factory was created with. */
    ghost const codes: seq<string>
    /** The departments not handed out yet. */
    var remainingDepartements: seq<string>
    /** The departments already taken off the queue, in order. */
    ghost var consumed: seq<string>

    ghost predicate Valid()
      reads this
    {
      consumed + remainingDepartements == codes
    }

    /** `[...codesDepartements]`: the queue is a copy, so the caller's array is only read. */
    constructor (layerName: string, baseURL: string, codesDepartements: array<string>)
      ensures Valid()
      ensures this.layerName == layerName && this.baseURL == baseURL
      ensures codes == codesDepartements[..] && remainingDepartements == codes && consumed == []
    {
      this.layerName := layerName;
      this.baseURL := baseURL;
      codes := codesDepartements[..];
      remainingDepartements := codesDepartements[..];
      consumed := [];
    }

    /**
     * `streamFactory`: with an empty queue, the end signal and no change;
     * otherwise the head is removed first, and only then is its pipeline built,
     * so a department whose construction throws is consumed all the same.
     */
    method StreamFactory(throws: Source -> bool) returns (c: Call)
      requires Valid()
      modifies this
      ensures Valid()
      ensures c == NextCall(layerName, baseURL, old(remainingDepartements), throws)
      ensures old(remainingDepartements) == [] ==>
                remainingDepartements == [] && consumed == old(consumed)
      ensures old(remainingDepartements) != [] ==>
                remainingDepartements == old(remainingDepartements)[1..] &&
                consumed == old(consumed) + [old(remainingDepartements)[0]]
      ensures c.EndOfData? ==> consumed == codes
      ensures Calls(layerName, baseURL, old(remainingDepartements), throws) ==
                [c] + (if c.EndOfData? then [] else Calls(layerName, baseURL, remainingDepartements, throws))
    {
      if |remainingDepartements| == 0 {
        return EndOfData;
      }
      var codeDepartement := remainingDepartements[0];
      remainingDepartements := remainingDepartements[1..];
      consumed := consumed + [codeDepartement];
      c := Popped(codeDepartement, Construct(layerName, baseURL, codeDepartement, throws));
      assert Valid() by {
        assert old(consumed) + [codeDepartement] + remainingDepartements == old(consumed) + old(remainingDepartements);
      }
    }
  }
}
