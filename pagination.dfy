/**
 * Pagination state of a list call: a page number and a page size, rendered
 * into the query parameters page[number] and page[size].
 */
module Paging {
  import opened Wrappers
  import opened Strconv
  import opened UrlValues
  import opened AccountModel

  const DefaultPageNumber: int64 := 0
  const DefaultSize: int64 := 10
  /** The size sent when the requested size is not positive; not DefaultSize. */
  const FallbackSize: int64 := 100

  const NumberKey: string := "page[number]"
  const SizeKey: string := "page[size]"

  datatype Pagination = Pagination(number: int64, size: int64)

  /** NewPagination: page 0 of 10, sent as it is (no clamping applies). */
  function NewPagination(): (p: Pagination)
    ensures p.number >= 0 && p.size > 0
    ensures Rendered(p) == map[NumberKey := ["0"], SizeKey := ["10"]]
  {
    assert DigitChar(0) == '0' && DigitChar(1) == '1';
    assert Itoa(0) == "0";
    assert Itoa(10) == NatToDecimal(1) + [DigitChar(0)] == "10";
    Pagination(DefaultPageNumber, DefaultSize)
  }

  /**
   * The query parameters for p: exactly the two page keys, one decimal value
   * each; a negative number is sent as 0 and a non-positive size as 100.
   */
  function Rendered(p: Pagination): (v: Values)
    ensures v.Keys == {NumberKey, SizeKey}
    ensures |v[NumberKey]| == 1 && |v[SizeKey]| == 1
    ensures IsCanonicalDecimal(v[NumberKey][0]) && IsCanonicalDecimal(v[SizeKey][0])
    ensures ParseDecimal(v[NumberKey][0]) == Some(if p.number < 0 then 0 else p.number as int)
    ensures ParseDecimal(v[SizeKey][0]) == Some(if p.size <= 0 then FallbackSize as int else p.size as int)
  {
    var number := if p.number < 0 then 0 else p.number as int;
    var size := if p.size <= 0 then FallbackSize as int else p.size as int;
    ItoaRoundTrip(number);
    ItoaRoundTrip(size);
    map[NumberKey := [Itoa(number)], SizeKey := [Itoa(size)]]
  }

  /** Pagination.Params: clamps local copies of the fields, then adds both keys. */
  method Params(p: Pagination) returns (params: Values)
    ensures params == Rendered(p)
  {
    params := map[];

    var number := p.number;
    if number < 0 {
      number := 0;
    }

    var size := p.size;
    if size <= 0 {
      size := FallbackSize;
    }

    params := Add(params, NumberKey, Itoa(number as int));
    params := Add(params, SizeKey, Itoa(size as int));
  }

  /** A non-positive size is sent as "100", never as the default "10". */
  lemma NonPositiveSizeSentAsHundred(p: Pagination)
    requires p.size <= 0
    ensures Rendered(p)[SizeKey] == ["100"]
    ensures Rendered(p)[SizeKey] != Rendered(NewPagination())[SizeKey]
  {
    ItoaRoundTrip(100);
    ParseRoundTrip("100");
  }

  /** Pages that need no clamping are sent without loss: distinct pages render differently. */
  lemma RenderedInjectiveOnValid(p: Pagination, q: Pagination)
    requires p.number >= 0 && p.size > 0 && q.number >= 0 && q.size > 0
    requires Rendered(p) == Rendered(q)
    ensures p == q
  {
  }

  /** Page 3 with the size left alone asks for page[number]=3 and page[size]=10; page -5 asks for page 0. */
  lemma NumberSetOverDefaults()
    ensures Rendered(NewPagination().(number := 3)) == map[NumberKey := ["3"], SizeKey := ["10"]]
    ensures Rendered(NewPagination().(number := -5))[NumberKey] == ["0"]
  {
  }
}
