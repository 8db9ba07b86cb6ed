/**
 * The "registered technicians" screen: the list is rebuilt from the server's
 * JSON array and then narrowed by a case-insensitive name search.
 */
module Technicians {
  import opened Wrappers
  import opened Text

  /** A technician as listed: id, name and optional role. */
  datatype TecnicoDto = TecnicoDto(id: int, name: string, role: Option<string>)

  /**
   * One element of the response array as `parseTecnico` sees it: the `id`
   * when it reads as an integer and the `name` and `role` strings when
   * present, or an element that is not a JSON object.
   */
  datatype TecnicoJson = TecnicoObject(id: Option<int>, name: Option<string>, role: Option<string>) | NotAnObject

  /** The body of the response: a JSON array, or text that is not one. */
  datatype TecnicosBody = JsonArray(elements: seq<TecnicoJson>) | NotArray

  /** What the request came back with. */
  datatype TecnicosOutcome = Reply(code: nat, body: TecnicosBody) | CommunicationError

  /** How a load ended. */
  datatype LoadResult = Offline | SessionExpired | HttpError(code: nat) | ExceptionRaised | Loaded

  /**
   * `parseTecnico`: an element without a readable `id` (or not an object)
   * throws; otherwise a missing `name` reads as "" and a missing `role` as null.
   */
  function ParseTecnico(obj: TecnicoJson): (t: Option<TecnicoDto>)
    ensures t.None? <==> obj.NotAnObject? || obj.id.None?
    ensures t.Some? ==> t.value.id == obj.id.value
    ensures t.Some? && obj.name.None? ==> t.value.name == ""
    ensures t.Some? && obj.name.Some? ==> t.value.name == obj.name.value
    ensures t.Some? ==> t.value.role == obj.role
  {
    match obj
    case NotAnObject => None
    case TecnicoObject(id, name, role) =>
      if id.None? then None else Some(TecnicoDto(id.value, name.GetOr(""), role))
  }

  /** All elements parsed in order, or None when some element throws. */
  function ParseAll(elements: seq<TecnicoJson>): (r: Option<seq<TecnicoDto>>)
    ensures r.Some? <==> forall k :: 0 <= k < |elements| ==> ParseTecnico(elements[k]).Some?
    ensures r.Some? ==> |r.value| == |elements|
    ensures r.Some? ==> forall k :: 0 <= k < |elements| ==> ParseTecnico(elements[k]) == Some(r.value[k])
  {
    if elements == [] then Some([])
    else
      match ParseTecnico(elements[0])
      case None => None
      case Some(t) =>
        match ParseAll(elements[1..])
        case None => None
        case Some(rest) => Some([t] + rest)
  }

  /** A technician is kept by the search for `term`. */
  predicate NameMatches(t: TecnicoDto, term: string)
  {
    ContainsIgnoreCase(t.name, term)
  }

  /** `sub` is `s` with some elements left out, the rest in their original order. */
  predicate IsSubsequence<T(==)>(sub: seq<T>, s: seq<T>)
    decreases |s|
  {
    if sub == [] then true
    else if s == [] then false
    else if sub[0] == s[0] then IsSubsequence(sub[1..], s[1..])
    else IsSubsequence(sub, s[1..])
  }

  /**
   * `filter { it.name.contains(term, ignoreCase = true) }`: keeps exactly the
   * technicians whose name contains the term, in their original order.
   */
  function FilterByName(items: seq<TecnicoDto>, term: string): (r: seq<TecnicoDto>)
    ensures forall t :: t in r <==> t in items && NameMatches(t, term)
    ensures IsSubsequence(r, items)
    ensures |r| <= |items|
  {
    if items == [] then []
    else if NameMatches(items[0], term) then [items[0]] + FilterByName(items[1..], term)
    else FilterByName(items[1..], term)
  }

  /** Filtering a concatenation filters each part: the order between parts is kept. */
  lemma {:induction false} FilterByNameAppend(a: seq<TecnicoDto>, b: seq<TecnicoDto>, term: string)
    ensures FilterByName(a + b, term) == FilterByName(a, term) + FilterByName(b, term)
  {
    if a != [] {
      assert (a + b)[1..] == a[1..] + b;
      FilterByNameAppend(a[1..], b, term);
    } else {
      assert a + b == b;
    }
  }

  /** The list shown by the screen. */
  class TecnicosScreen {
    var listaTecnicos: seq<TecnicoDto>

    constructor ()
      ensures listaTecnicos == []
    {
      listaTecnicos := [];
    }

    /**
     * `carregarTecnicos`. Offline, without a session token, on a transport
     * error, a non-2xx reply or a body that is not an array, the list is left
     * as it was. Otherwise the list is cleared and refilled in response order;
     * an element that throws stops the refill, leaving the elements parsed
     * before it. A complete refill is then narrowed to the names matching the
     * trimmed search term, unless that term is empty.
     */
    method CarregarTecnicos(online: bool, token: Option<string>, searchText: string, outcome: TecnicosOutcome)
      returns (result: LoadResult)
      modifies this
      ensures result == Offline <==> !online
      ensures result == SessionExpired <==> online && (token.None? || token.value == "")
      ensures result == Loaded <==>
        && online && token.Some? && token.value != ""
        && outcome.Reply? && 200 <= outcome.code < 300
        && outcome.body.JsonArray? && ParseAll(outcome.body.elements).Some?
      ensures (result.Offline? || result.SessionExpired? || result.HttpError?
               || (result.ExceptionRaised? && !(outcome.Reply? && outcome.body.JsonArray?)))
              ==> listaTecnicos == old(listaTecnicos)
      ensures result.HttpError? <==> online && token.Some? && token.value != "" && outcome.Reply? && !(200 <= outcome.code < 300)
      ensures result.HttpError? ==> result.code == outcome.code
      ensures result == Loaded ==>
        && outcome.Reply? && outcome.body.JsonArray?
        && ParseAll(outcome.body.elements).Some?
        && var all := ParseAll(outcome.body.elements).value;
           listaTecnicos == (if Trim(searchText) == "" then all else FilterByName(all, Trim(searchText)))
      ensures result == ExceptionRaised && outcome.Reply? && outcome.body.JsonArray? ==>
        var elements := outcome.body.elements;
        && |listaTecnicos| < |elements|
        && ParseTecnico(elements[|listaTecnicos|]).None?
        && forall k :: 0 <= k < |listaTecnicos| ==> ParseTecnico(elements[k]) == Some(listaTecnicos[k])
    {
      if !online {
        return Offline;
      }
      if token.None? || token.value == "" {
        return SessionExpired;
      }
      var term := Trim(searchText);
      match outcome
      case CommunicationError =>
        return ExceptionRaised;
      case Reply(code, body) =>
        if !(200 <= code < 300) {
          return HttpError(code);
        }
        match body
        case NotArray =>
          return ExceptionRaised;
        case JsonArray(elements) =>
          listaTecnicos := [];
          var i := 0;
          while i < |elements|
            invariant 0 <= i <= |elements|
            invariant |listaTecnicos| == i
            invariant forall k :: 0 <= k < i ==> ParseTecnico(elements[k]) == Some(listaTecnicos[k])
          {
            var tecnico := ParseTecnico(elements[i]);
            if tecnico.None? {
              return ExceptionRaised;
            }
            listaTecnicos := listaTecnicos + [tecnico.value];
            i := i + 1;
          }
          assert listaTecnicos == ParseAll(elements).value;
          if term != "" {
            listaTecnicos := FilterByName(listaTecnicos, term);
          }
          return Loaded;
    }
  }
}
