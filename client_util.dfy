/** client/util/common.go: query-string building over an option struct's fields, json-tag
    lookup and assignment, trimmed membership, validation-message accumulation and the
    single-letter check used for environment names. */
module ClientUtil {
  import opened Text
  import opened QueryString

  /** BuildCommandURL: fields in declaration order as `tag=value`, joined by '&'; an empty
      slice or an int equal to -1 (an unset option) is left out. */
  method BuildCommandURL(fields: seq<Field>) returns (url: string)
    ensures url == CommandURL(fields, true)
  {
    url := "";
    for i := 0 to |fields|
      invariant url == Terminated(Pieces(fields[..i], true), "&")
    {
      var f := fields[i];
      ghost var before := url;
      ghost var done := Pieces(fields[..i], true);
      PiecesStep(fields, i, true);
      if f.value.Strings? {
        var items := f.value.items;
        if |items| == 0 {
          continue;
        }
        url := url + f.tag + "=";
        ghost var base := url;
        for j := 0 to |items|
          invariant url == base + Terminated(items[..j], ",")
        {
          assert items[..j + 1][..j] == items[..j];
          url := url + items[j] + ",";
        }
        assert items[..|items|] == items;
        SliceStep(before, f.tag, items);
        url := TrimRight(url, ',');
      } else {
        if f.value.Int? && f.value.n == -1 {
          continue;
        }
        url := url + f.tag + "=" + ScalarString(f.value);
      }
      assert url == before + Render(f);
      TerminatedStep(done, Render(f), "&");
      url := url + "&";
    }
    assert fields[..|fields|] == fields;
    var pieces := Pieces(fields, true);
    if pieces != [] {
      TerminatedIsJoinedPlusTerm(pieces, "&");
      TrimRightAppendCut(Join(pieces, "&"), '&');
    }
    url := TrimRight(url, '&');
  }

  /** TagExists: some field carries the json tag. */
  function TagExists(fields: seq<Field>, tag: string): (b: bool)
    ensures b <==> exists i :: 0 <= i < |fields| && fields[i].tag == tag
    decreases |fields|
  {
    if fields == [] then false
    else if fields[0].tag == tag then true
    else
      var b := TagExists(fields[1..], tag);
      assert forall i :: 1 <= i < |fields| ==> fields[i] == fields[1..][i - 1];
      b
  }

  /** strconv.ParseBool with its error ignored: only the accepted spellings of true give true. */
  function ParseBool(s: string): bool
  {
    s == "1" || s == "t" || s == "T" || s == "TRUE" || s == "true" || s == "True"
  }

  /** The value a matching field receives: an int takes the parsed integer (strconv.ParseInt's
      result, supplied by the caller), a string the text, a bool the parsed bool; a slice is
      an unsupported kind and keeps its value. */
  function Assigned(f: Field, setVal: string, parsedInt: int): Field
  {
    match f.value
    case Int(_) => Field(f.tag, Int(parsedInt))
    case Str(_) => Field(f.tag, Str(setVal))
    case Bool(_) => Field(f.tag, Bool(ParseBool(setVal)))
    case Strings(_) => f
  }

  /** SetValueIfTagExists: every field whose tag matches is assigned in place; nothing else
      changes, and without a matching tag the struct is left as it was. */
  method SetValueIfTagExists(fields: array<Field>, tag: string, setVal: string, parsedInt: int)
    modifies fields
    ensures forall i :: 0 <= i < fields.Length ==>
              fields[i] == if old(fields[i]).tag == tag then Assigned(old(fields[i]), setVal, parsedInt)
                           else old(fields[i])
    ensures forall i :: 0 <= i < fields.Length ==> fields[i].tag == old(fields[i]).tag
    ensures !TagExists(old(fields[..]), tag) ==> fields[..] == old(fields[..])
  {
    for i := 0 to fields.Length
      invariant forall k :: 0 <= k < i ==>
                  fields[k] == if old(fields[k]).tag == tag then Assigned(old(fields[k]), setVal, parsedInt)
                               else old(fields[k])
      invariant forall k :: i <= k < fields.Length ==> fields[k] == old(fields[k])
    {
      if fields[i].tag == tag {
        fields[i] := Assigned(fields[i], setVal, parsedInt);
      }
    }
  }

  /** Contains: some element equals `str` once surrounding white space is trimmed from both. */
  function Contains(str: string, list: seq<string>): (b: bool)
    ensures b <==> exists i :: 0 <= i < |list| && TrimSpace(list[i]) == TrimSpace(str)
    decreases |list|
  {
    if list == [] then false
    else if TrimSpace(list[0]) == TrimSpace(str) then true
    else
      var b := Contains(str, list[1..]);
      assert forall i :: 1 <= i < |list| ==> list[i] == list[1..][i - 1];
      b
  }

  /** `[msg]` when the check fails, nothing when it holds. */
  function Failed(isValid: bool, msg: string): (r: seq<string>)
    ensures r == [] <==> isValid
    ensures !isValid ==> r == [msg]
  {
    if isValid then [] else [msg]
  }

  /** The growing list of validation messages that Check appends to through a pointer. */
  class ErrorList {
    var messages: seq<string>

    constructor ()
      ensures messages == []
    {
      messages := [];
    }

    /** Check: appends the (already formatted) message exactly when the condition fails. */
    method Check(isValid: bool, msg: string)
      modifies this
      ensures messages == old(messages) + Failed(isValid, msg)
    {
      if !isValid {
        messages := messages + [msg];
      }
    }
  }

  predicate IsAsciiLetter(c: char)
  {
    'a' <= c <= 'z' || 'A' <= c <= 'Z'
  }

  /** ValidateSingleChar: the input matches `^[a-zA-Z]$`: the whole string is one character,
      and that character is an ASCII letter. */
  function ValidateSingleChar(input: string): (b: bool)
    ensures b <==> exists c :: input == [c] && ('a' <= c <= 'z' || 'A' <= c <= 'Z')
  {
    if |input| == 1 then
      assert input == [input[0]];
      IsAsciiLetter(input[0])
    else false
  }

  /** One letter passes; the empty string, two letters, a digit or a non-ASCII letter do not. */
  lemma SingleCharExamples()
    ensures ValidateSingleChar("Y") && ValidateSingleChar("b")
    ensures !ValidateSingleChar("") && !ValidateSingleChar("YB") && !ValidateSingleChar("1")
    ensures !ValidateSingleChar("\U{00E9}") && !ValidateSingleChar(" ")
  {
  }
}
