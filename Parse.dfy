/**
 * The response slicer `parseJSON` of lib/parse.ts: it cuts a model response from
 * its first `{` up to and including its last `}` and hands that text to
 * `JSON.parse`. The slice follows `substring`, so it is determinate even when a
 * brace is missing or the braces are out of order.
 *
 * `JSON.parse` itself is not modelled: it is a parameter, a total function from
 * text to either a value of an abstract type `J` or a thrown SyntaxError.
 */
module Parse {
  import opened JsString

  /** The outcome of `JSON.parse(text)`: a value, or a SyntaxError with its message. */
  datatype JsonParse<+J> = Parsed(value: J) | SyntaxError(message: string)

  /** `str.indexOf('{')`: the index of the first `{`, or -1 when there is none. */
  function SliceStart(s: string): (start: int)
    ensures -1 <= start < |s|
    ensures start == -1 <==> '{' !in s
    ensures start >= 0 ==> s[start] == '{' && '{' !in s[..start]
  {
    IndexOf(s, '{')
  }

  /** `str.lastIndexOf('}') + 1`: one past the last `}`, hence 0 when there is none. */
  function SliceEnd(s: string): (end: nat)
    ensures end <= |s|
    ensures end == 0 <==> '}' !in s
    ensures end > 0 ==> s[end - 1] == '}' && '}' !in s[end..]
  {
    LastIndexOf(s, '}') + 1
  }

  /** `str.substring(start, end)`: the text handed to `JSON.parse`. */
  function Slice(s: string): (r: string)
    ensures |r| <= |s|
  {
    Substring(s, SliceStart(s), SliceEnd(s))
  }

  /** `parseJSON(str)`: `JSON.parse` applied to the slice. */
  function ParseJson<J>(s: string, jsonParse: string -> JsonParse<J>): (r: JsonParse<J>)
    ensures BracesOrdered(s) ==> r == jsonParse(s[SliceStart(s)..SliceEnd(s)])
    ensures '{' !in s && '}' !in s ==> r == jsonParse("")
  {
    jsonParse(Slice(s))
  }

  /** The input has a `{` somewhere before its last `}`. */
  predicate BracesOrdered(s: string)
  {
    '}' in s && '{' in s[..LastIndexOf(s, '}')]
  }

  /**
   * With a `{` before the last `}`, the slice is the contiguous piece of the
   * input from the first `{` to the last `}`, both included.
   */
  lemma SliceOfOrderedBraces(s: string)
    requires BracesOrdered(s)
    ensures 0 <= SliceStart(s) < SliceEnd(s) - 1
    ensures Slice(s) == s[SliceStart(s)..SliceEnd(s)]
    ensures |Slice(s)| >= 2 && Slice(s)[0] == '{' && Slice(s)[|Slice(s)| - 1] == '}'
  {
    var last := LastIndexOf(s, '}');
    var j :| 0 <= j < last && s[..last][j] == '{';
    assert s[j] == '{';
  }

  /**
   * Noise tolerance: text before the envelope that holds no `{`, and text after
   * it that holds no `}`, are cut away exactly.
   */
  lemma NoiseTolerance(prefix: string, body: string, suffix: string)
    requires body != [] && body[0] == '{' && body[|body| - 1] == '}'
    requires '{' !in prefix && '}' !in suffix
    ensures Slice(prefix + body + suffix) == body
  {
    var s := prefix + body + suffix;
    var open, close := |prefix|, |prefix| + |body| - 1;
    assert s[open] == '{' && s[close] == '}';
    assert s[open..close + 1] == body;
  }

  /** Slicing its own output again changes nothing, once the braces are in order. */
  lemma SliceIsIdempotent(s: string)
    requires BracesOrdered(s)
    ensures Slice(Slice(s)) == Slice(s)
  {
    SliceOfOrderedBraces(s);
    NoiseTolerance([], Slice(s), []);
    assert [] + Slice(s) + [] == Slice(s);
  }

  /** Neither brace: both indices clamp to 0 and the slice is empty. */
  lemma SliceWithoutBraces(s: string)
    requires '{' !in s && '}' !in s
    ensures Slice(s) == ""
  {
  }

  /** No `}`: the indices are swapped and the slice is the text before the first `{`. */
  lemma SliceWithoutClose(s: string)
    requires '{' in s && '}' !in s
    ensures Slice(s) == s[..SliceStart(s)]
    ensures '{' !in Slice(s)
  {
  }

  /** No `{`: the start clamps to 0 and the slice runs up to and including the last `}`. */
  lemma SliceWithoutOpen(s: string)
    requires '{' !in s && '}' in s
    ensures Slice(s) == s[..SliceEnd(s)]
    ensures Slice(s)[|Slice(s)| - 1] == '}'
  {
  }

  /**
   * The last `}` comes before the first `{`: the indices are swapped and the
   * slice is the text strictly between the two, which holds neither brace.
   */
  lemma SliceOfReversedBraces(s: string)
    requires '{' in s && '}' in s && LastIndexOf(s, '}') < SliceStart(s)
    ensures Slice(s) == s[SliceEnd(s)..SliceStart(s)]
    ensures '{' !in Slice(s) && '}' !in Slice(s)
  {
    var start, end := SliceStart(s), SliceEnd(s);
    assert s[end..start] == s[end..][..start - end];
    assert s[end..start] == s[..start][end..];
  }

  /** What `JSON.parse` sees, and so whether it throws, depends on the slice alone. */
  lemma ParseSeesOnlySlice<J>(a: string, b: string, jsonParse: string -> JsonParse<J>)
    requires Slice(a) == Slice(b)
    ensures ParseJson(a, jsonParse) == ParseJson(b, jsonParse)
  {
  }

  /** A JSON envelope wrapped in conversational noise is parsed as if it stood alone. */
  lemma ParseOfEnvelope<J>(prefix: string, body: string, suffix: string, jsonParse: string -> JsonParse<J>)
    requires body != [] && body[0] == '{' && body[|body| - 1] == '}'
    requires '{' !in prefix && '}' !in suffix
    ensures ParseJson(prefix + body + suffix, jsonParse) == jsonParse(body)
  {
    NoiseTolerance(prefix, body, suffix);
  }

  /** The response `Sure! {"analysis":"STYLE:\n...","other":1} Thanks.` slices to its object. */
  lemma SliceOfChattyResponse()
    ensures Slice("Sure! " + "{\"analysis\":\"STYLE:\\n...\",\"other\":1}" + " Thanks.")
         == "{\"analysis\":\"STYLE:\\n...\",\"other\":1}"
  {
    var prefix, body, suffix := "Sure! ", "{\"analysis\":\"STYLE:\\n...\",\"other\":1}", " Thanks.";
    assert |body| == 36 && body[0] == '{' && body[35] == '}';
    assert '{' !in prefix && '}' !in suffix;
    NoiseTolerance(prefix, body, suffix);
  }
}
