/** How a RabbitMQ exchange matches a message against a binding: topic exchanges (AMQP 0-9-1,
    section 3.1.3.3) and headers exchanges (section 3.1.3.4). */
module Amqp {
  import opened Words

  // ---------- topic exchanges ----------

  const ANY_WORD := "*"
  const ANY_WORDS := "#"

  /** '*' stands for one word, '#' for any number of words. */
  predicate WordsMatch(pattern: seq<string>, key: seq<string>)
    decreases |pattern| + |key|
  {
    if pattern == [] then key == []
    else if pattern[0] == ANY_WORDS then
      WordsMatch(pattern[1..], key) || (key != [] && WordsMatch(pattern, key[1..]))
    else
      key != [] && (pattern[0] == ANY_WORD || pattern[0] == key[0]) && WordsMatch(pattern[1..], key[1..])
  }

  predicate TopicMatches(bindingKey: string, routingKey: string) {
    WordsMatch(Split(bindingKey, '.'), Split(routingKey, '.'))
  }

  /** No word of it is a wildcard. */
  predicate Literal(ws: seq<string>) {
    forall i :: 0 <= i < |ws| ==> ws[i] != ANY_WORD && ws[i] != ANY_WORDS
  }

  lemma {:induction false} HashTakesAll(key: seq<string>)
    ensures WordsMatch([ANY_WORDS], key)
    decreases |key|
  {
    assert [ANY_WORDS][1..] == [];
    if key != [] {
      HashTakesAll(key[1..]);
    }
  }

  /** Literal words and a final '#' match exactly the keys that start with those words. */
  lemma {:induction false} LiteralThenHash(ws: seq<string>, key: seq<string>)
    requires Literal(ws)
    ensures WordsMatch(ws + [ANY_WORDS], key) <==> ws <= key
  {
    var pattern := ws + [ANY_WORDS];
    if ws == [] {
      assert pattern == [ANY_WORDS];
      HashTakesAll(key);
    } else {
      assert pattern[0] == ws[0] && pattern[1..] == ws[1..] + [ANY_WORDS];
      if key != [] {
        LiteralThenHash(ws[1..], key[1..]);
        assert ws == [ws[0]] + ws[1..] && key == [key[0]] + key[1..];
      }
    }
  }

  /** A key that matches starts with the literal words the pattern starts with. */
  lemma {:induction false} LiteralFront(front: seq<string>, rest: seq<string>, key: seq<string>)
    requires Literal(front) && WordsMatch(front + rest, key)
    ensures front <= key
  {
    if front != [] {
      assert (front + rest)[1..] == front[1..] + rest;
      LiteralFront(front[1..], rest, key[1..]);
      assert front == [front[0]] + front[1..] && key == [key[0]] + key[1..];
    }
  }

  /** The same words in front do not matter. */
  lemma {:induction false} SameWordsInFront(ws: seq<string>, pattern: seq<string>, key: seq<string>)
    requires Literal(ws)
    ensures WordsMatch(ws + pattern, ws + key) <==> WordsMatch(pattern, key)
  {
    if ws == [] {
      assert ws + pattern == pattern && ws + key == key;
    } else {
      assert (ws + pattern)[1..] == ws[1..] + pattern && (ws + key)[1..] == ws[1..] + key;
      SameWordsInFront(ws[1..], pattern, key);
    }
  }

  // ---------- headers exchanges ----------

  /** Arguments that start with "x-" steer the matching and take no part in it. */
  predicate IsSteering(argument: string) {
    "x-" <= argument
  }

  predicate HeaderMatches(arguments: map<string, string>, headers: map<string, string>, k: string)
    requires k in arguments
  {
    k in headers && headers[k] == arguments[k]
  }

  predicate HeadersMatch(arguments: map<string, string>, headers: map<string, string>) {
    if "x-match" in arguments && arguments["x-match"] == "any"
    then exists k :: k in arguments && !IsSteering(k) && HeaderMatches(arguments, headers, k)
    else forall k :: k in arguments && !IsSteering(k) ==> HeaderMatches(arguments, headers, k)
  }
}
