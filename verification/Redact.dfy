/** Redaction of JSON objects (security/redact.go) and recipient masking (http/handlers/handlers.go). */
module Redact {
  import opened Common
  import opened Text

  datatype Json =
    | Null
    | Bool(b: bool)
    | Number(n: real)
    | Str(s: string)
    | Array(items: seq<Json>)
    | Object(fields: map<string, Json>)

  const SECRET_KEYS := ["secret", "token", "password", "api_key", "apikey", "authorization", "private_key"]

  const REDACTED := Str("[REDACTED]")

  predicate IsSecret(key: string) { exists i | 0 <= i < |SECRET_KEYS| :: Contains(Lower(key), SECRET_KEYS[i]) }

  ghost predicate Within(word: string, text: string) { exists a: string, b: string :: text == a + word + b }

  /** A key is secret exactly when its lower-cased name has one of seven words in it, at any place. */
  lemma SecretIff(key: string)
    ensures var k := Lower(key);
            IsSecret(key) <==>
            || Within("secret", k) || Within("token", k) || Within("password", k) || Within("api_key", k) || Within("apikey", k)
            || Within("authorization", k) || Within("private_key", k)
  {
    hide Contains;
    forall word: string ensures Contains(Lower(key), word) <==> Within(word, Lower(key)) {
      ContainsIff(Lower(key), word);
    }
    assert SECRET_KEYS[0] == "secret" && SECRET_KEYS[1] == "token" && SECRET_KEYS[2] == "password" && SECRET_KEYS[3] == "api_key";
    assert SECRET_KEYS[4] == "apikey" && SECRET_KEYS[5] == "authorization" && SECRET_KEYS[6] == "private_key";
  }

  function Redacted(input: map<string, Json>): map<string, Json>
    decreases Object(input)
  {
    map k <- input :: k :=
      if IsSecret(k) then REDACTED
      else if input[k].Object? then Object(Redacted(input[k].fields))
      else input[k]
  }

  /** `RedactMap`: fills a new map, in whatever order the entries come. */
  method RedactMap(input: map<string, Json>) returns (out: map<string, Json>)
    ensures out == Redacted(input)
    decreases Object(input)
  {
    out := map[];
    var rest := input.Keys;
    while rest != {}
      invariant rest <= input.Keys
      invariant out.Keys == input.Keys - rest
      invariant forall k <- out :: out[k] == Redacted(input)[k]
    {
      var k :| k in rest;
      if IsSecret(k) {
        out := out[k := REDACTED];
      } else if input[k].Object? {
        var nested := RedactMap(input[k].fields);
        out := out[k := Object(nested)];
      } else {
        out := out[k := input[k]];
      }
      rest := rest - {k};
    }
  }

  /** The value reached by following keys through nested objects. */
  function Lookup(m: map<string, Json>, path: seq<string>): Option<Json>
    requires path != []
    decreases |path|
  {
    if path[0] !in m then None
    else if |path| == 1 then Some(m[path[0]])
    else if m[path[0]].Object? then Lookup(m[path[0]].fields, path[1..])
    else None
  }

  predicate SecretWithin(path: seq<string>) { exists k <- path :: IsSecret(k) }

  /** Every path of the result: nothing below a secret key, the marker at it, and everywhere else the same
      leaf or an object with the same keys. */
  lemma {:induction false} PathsOfRedacted(m: map<string, Json>, path: seq<string>)
    requires path != []
    ensures var value, shown := Lookup(m, path), Lookup(Redacted(m), path);
            if SecretWithin(path[..|path| - 1]) then shown == None
            else if IsSecret(path[|path| - 1]) then shown == if value.Some? then Some(REDACTED) else None
            else if value.Some? && value.value.Object? then shown == Some(Object(Redacted(value.value.fields)))
            else shown == value
    decreases |path|
  {
    hide IsSecret;
    var k := path[0];
    if |path| > 1 {
      assert path[..|path| - 1] == [k] + path[1..][..|path| - 2];
      if k in m && m[k].Object? && !IsSecret(k) {
        PathsOfRedacted(m[k].fields, path[1..]);
      }
      assert SecretWithin(path[..|path| - 1]) <==> IsSecret(k) || SecretWithin(path[1..][..|path| - 2]);
    }
  }

  /** Equal except under secret keys reached through nested objects. */
  ghost predicate Agree(a: map<string, Json>, b: map<string, Json>)
    decreases Object(a)
  {
    && a.Keys == b.Keys
    && forall k <- a | !IsSecret(k) ::
         if a[k].Object? && b[k].Object? then Agree(a[k].fields, b[k].fields) else a[k] == b[k]
  }

  /** What the result depends on: two inputs give the same output exactly when they differ only under
      secret keys. Nothing else is lost, and nothing below a secret key shows. */
  lemma {:induction false} HidesExactlySecrets(a: map<string, Json>, b: map<string, Json>)
    ensures Redacted(a) == Redacted(b) <==> Agree(a, b)
    decreases Object(a)
  {
    hide IsSecret;
    assert Redacted(a).Keys == a.Keys && Redacted(b).Keys == b.Keys;
    forall k | k in a && k in b && !IsSecret(k) && a[k].Object? && b[k].Object?
      ensures Redacted(a)[k] == Redacted(b)[k] <==> Agree(a[k].fields, b[k].fields)
    {
      HidesExactlySecrets(a[k].fields, b[k].fields);
    }
    if Redacted(a) == Redacted(b) {
      assert forall k <- a :: k in Redacted(b) && Redacted(a)[k] == Redacted(b)[k];
    }
  }

  lemma {:induction false} RedactTwice(m: map<string, Json>)
    ensures Redacted(Redacted(m)) == Redacted(m)
    decreases Object(m)
  {
    hide IsSecret;
    forall k | k in m && !IsSecret(k) && m[k].Object?
      ensures Redacted(Redacted(m[k].fields)) == Redacted(m[k].fields)
    {
      RedactTwice(m[k].fields);
    }
  }

  /** Arrays are not descended: wherever one is reached without passing a secret key, it comes through
      unchanged, with whatever its elements hold. */
  lemma ArraysComeThrough(m: map<string, Json>, path: seq<string>)
    requires path != [] && !SecretWithin(path)
    requires Lookup(m, path).Some? && Lookup(m, path).value.Array?
    ensures Lookup(Redacted(m), path) == Lookup(m, path)
  {
    hide IsSecret;
    PathsOfRedacted(m, path);
    assert forall k <- path[..|path| - 1] :: k in path;
  }

  // Recipient masking.

  function RedactEmail(email: string): string {
    var parts := Split(email, '@');
    if |parts| != 2 || |parts[0]| < 2 then "[REDACTED_EMAIL]" else parts[0][..1] + "***@" + parts[1]
  }

  function RedactPhone(phone: string): string {
    if |phone| < 5 then "[REDACTED_PHONE]"
    else if |phone| <= 6 then phone[..2] + "***" + phone[|phone| - 1..]
    else phone[..3] + "****" + phone[|phone| - 3..]
  }

  function Stars(n: nat): string { seq(n, _ => '*') }

  function MaskToken(token: string): string {
    if |token| <= 8 then "[REDACTED_TOKEN]"
    else token[..4] + Stars(|token| - 8) + token[|token| - 4..]
  }

  const TOKEN_FIELDS := ["fcm_token", "push_token", "device_token"]

  /** Replaces a field holding a non-empty string. */
  function MaskField(m: map<string, Json>, key: string, mask: string -> string): map<string, Json> {
    if key in m && m[key].Str? && m[key].s != "" then m[key := Str(mask(m[key].s))] else m
  }

  function MaskFields(m: map<string, Json>, keys: seq<string>, mask: string -> string): map<string, Json> {
    if keys == [] then m else MaskFields(MaskField(m, keys[0], mask), keys[1..], mask)
  }

  function MaskRecipient(input: map<string, Json>): map<string, Json> {
    MaskFields(MaskField(MaskField(Redacted(input), "email", RedactEmail), "phone", RedactPhone), TOKEN_FIELDS, MaskToken)
  }

  /** `maskRecipientMap`. */
  method MaskRecipientMap(input: map<string, Json>) returns (out: map<string, Json>)
    ensures out == MaskRecipient(input)
  {
    out := RedactMap(input);
    if "email" in out && out["email"].Str? && out["email"].s != "" {
      out := out["email" := Str(RedactEmail(out["email"].s))];
    }
    if "phone" in out && out["phone"].Str? && out["phone"].s != "" {
      out := out["phone" := Str(RedactPhone(out["phone"].s))];
    }
    var i := 0;
    while i < |TOKEN_FIELDS|
      invariant 0 <= i <= |TOKEN_FIELDS|
      invariant MaskFields(out, TOKEN_FIELDS[i..], MaskToken) == MaskRecipient(input)
    {
      var key := TOKEN_FIELDS[i];
      if key in out && out[key].Str? && out[key].s != "" {
        out := out[key := Str(MaskToken(out[key].s))];
      }
      i := i + 1;
    }
  }

  lemma TokenFieldsAreSecret()
    ensures forall key <- TOKEN_FIELDS :: IsSecret(key)
    ensures !IsSecret("email") && !IsSecret("phone")
  {
    assert OccursAt(Lower("fcm_token"), "token", 4) && SECRET_KEYS[1] == "token";
    assert OccursAt(Lower("push_token"), "token", 5);
    assert OccursAt(Lower("device_token"), "token", 7);
    assert forall i | 0 <= i < |SECRET_KEYS| :: |SECRET_KEYS[i]| > 5 || SECRET_KEYS[i] == "token";
    assert Lower("email")[0] == 'e' && Lower("phone")[0] == 'p';
    HasNoToken(Lower("email"));
    HasNoToken(Lower("phone"));
  }

  lemma HasNoToken(s: string)
    requires |s| == 5 && s[0] != 't'
    ensures !Contains(s, "token")
  {
    assert OccursAt(s, "token", 0) ==> s == "token";
  }

  /** What masking makes of one field. */
  function MaskedValue(key: string, v: Json): Json {
    if key in ["fcm_token", "push_token", "device_token"] then Str("[RED**TED]")
    else if IsSecret(key) then REDACTED
    else if v.Object? then Object(Redacted(v.fields))
    else if key == "email" && v.Str? && v.s != "" then Str(RedactEmail(v.s))
    else if key == "phone" && v.Str? && v.s != "" then Str(RedactPhone(v.s))
    else v
  }

  lemma {:induction false} MaskFieldsKeys(m: map<string, Json>, keys: seq<string>, mask: string -> string)
    ensures MaskFields(m, keys, mask).Keys == m.Keys
    decreases |keys|
  {
    if keys != [] {
      MaskFieldsKeys(MaskField(m, keys[0], mask), keys[1..], mask);
    }
  }

  lemma {:induction false} MaskFieldsAt(m: map<string, Json>, keys: seq<string>, mask: string -> string, key: string)
    requires key in m && forall i, j :: 0 <= i < j < |keys| ==> keys[i] != keys[j]
    ensures key in MaskFields(m, keys, mask)
    ensures MaskFields(m, keys, mask)[key] ==
            if key in keys && m[key].Str? && m[key].s != "" then Str(mask(m[key].s)) else m[key]
    decreases |keys|
  {
    if keys != [] {
      assert keys == [keys[0]] + keys[1..];
      MaskFieldsAt(MaskField(m, keys[0], mask), keys[1..], mask, key);
    }
  }

  lemma MaskRecipientAt(input: map<string, Json>, key: string)
    requires key in input
    ensures key in MaskRecipient(input) && MaskRecipient(input)[key] == MaskedValue(key, input[key])
  {
    hide IsSecret, RedactEmail, RedactPhone, MaskFields;
    TokenFieldsAreSecret();
    assert MaskToken("[REDACTED]") == "[RED**TED]";
    var m := MaskField(MaskField(Redacted(input), "email", RedactEmail), "phone", RedactPhone);
    MaskFieldsAt(m, TOKEN_FIELDS, MaskToken, key);
  }

  /** Masking works field by field and drops or adds none. In particular each of the three token fields
      always ends as the same constant: the redaction has replaced the token before it is masked. */
  lemma MaskRecipientByField(input: map<string, Json>)
    ensures MaskRecipient(input) == map key <- input :: MaskedValue(key, input[key])
  {
    hide MaskFields, MaskedValue;
    forall key <- input ensures key in MaskRecipient(input) && MaskRecipient(input)[key] == MaskedValue(key, input[key]) {
      MaskRecipientAt(input, key);
    }
    MaskingAddsNothing(input);
  }

  lemma MaskingAddsNothing(input: map<string, Json>)
    ensures MaskRecipient(input).Keys <= input.Keys
  {
    hide MaskFields;
    var m := MaskField(MaskField(Redacted(input), "email", RedactEmail), "phone", RedactPhone);
    assert m.Keys == input.Keys;
    MaskFieldsKeys(m, TOKEN_FIELDS, MaskToken);
  }

  /** Recipients that differ only under secret keys, the tokens among them, are masked alike. */
  lemma MaskingHidesSecrets(a: map<string, Json>, b: map<string, Json>)
    requires Agree(a, b)
    ensures MaskRecipient(a) == MaskRecipient(b)
  {
    HidesExactlySecrets(a, b);
  }

  predicate IsAddress(email: string, local: string, domain: string) {
    email == local + "@" + domain && '@' !in local && '@' !in domain
  }

  /** An address with one @ sign shows its first character and its domain, if there are two characters to
      choose from; anything else shows nothing. */
  lemma RedactedEmailShows(email: string)
    ensures forall local, domain | IsAddress(email, local, domain) && |local| >= 2 ::
              RedactEmail(email) == [local[0]] + "***@" + domain
    ensures (forall local, domain | IsAddress(email, local, domain) :: |local| < 2) ==> RedactEmail(email) == "[REDACTED_EMAIL]"
  {
    hide Split;
    forall local, domain | IsAddress(email, local, domain) ensures Split(email, '@') == [local, domain] {
      assert Join([local, domain], '@') == email;
      SplitJoin([local, domain], '@');
    }
    var parts := Split(email, '@');
    SplitParts(email, '@');
    if |parts| == 2 {
      assert Join(parts, '@') == parts[0] + "@" + parts[1];
      assert IsAddress(email, parts[0], parts[1]);
    }
  }

  /** What a masked phone number shows: of seven characters and more the first and the last three, of five and
      six the first two and the last, of fewer nothing. */
  lemma PhonesMaskedAlikeIff(p: string, q: string)
    ensures RedactPhone(p) == RedactPhone(q) <==>
            || (|p| < 5 && |q| < 5)
            || (5 <= |p| <= 6 && 5 <= |q| <= 6 && p[..2] == q[..2] && p[|p| - 1] == q[|q| - 1])
            || (|p| >= 7 && |q| >= 7 && p[..3] == q[..3] && p[|p| - 3..] == q[|q| - 3..])
  {
    var x, y := RedactPhone(p), RedactPhone(q);
    if 5 <= |p| <= 6 && 5 <= |q| <= 6 {
      assert x[..2] == p[..2] && y[..2] == q[..2] && x[5] == p[|p| - 1] && y[5] == q[|q| - 1];
    } else if |p| >= 7 && |q| >= 7 {
      assert x[..3] == p[..3] && y[..3] == q[..3] && x[7..] == p[|p| - 3..] && y[7..] == q[|q| - 3..];
    } else {
      assert |x| == |y| <==> |p| < 5 && |q| < 5;
    }
  }

  lemma RedactEmailTwice(email: string)
    ensures RedactEmail(RedactEmail(email)) == RedactEmail(email)
  {
    var parts := Split(email, '@');
    SplitParts(email, '@');
    if |parts| != 2 || |parts[0]| < 2 {
      assert Join(["[REDACTED_EMAIL]"], '@') == "[REDACTED_EMAIL]";
      SplitJoin(["[REDACTED_EMAIL]"], '@');
    } else {
      var shown := parts[0][..1] + "***";
      assert parts[0][0] != '@' && parts[1] in parts;
      assert Join([shown, parts[1]], '@') == shown + "@" + parts[1] == RedactEmail(email);
      SplitJoin([shown, parts[1]], '@');
    }
  }

  lemma RedactPhoneTwiceIff(phone: string)
    ensures RedactPhone(RedactPhone(phone)) == RedactPhone(phone) <==> |phone| >= 5
  {
    var once := RedactPhone(phone);
    if |phone| < 5 {
      assert |RedactPhone(once)| == 10;
    } else if |phone| <= 6 {
      assert once[..2] == phone[..2] && once[5..] == phone[|phone| - 1..];
    } else {
      assert once[..3] == phone[..3] && once[7..] == phone[|phone| - 3..];
    }
  }

  /** Masking a masked recipient changes nothing, except that a phone of one to four characters, whose
      marker is itself masked the second time. */
  lemma MaskTwiceIff(input: map<string, Json>)
    ensures MaskRecipient(MaskRecipient(input)) == MaskRecipient(input) <==>
            !("phone" in input && input["phone"].Str? && 1 <= |input["phone"].s| < 5)
  {
    hide MaskRecipient, MaskedValue;
    var once := MaskRecipient(input);
    MaskRecipientByField(input);
    MaskRecipientByField(once);
    forall key <- input ensures MaskedValue(key, once[key]) == once[key] <==>
      !(key == "phone" && input[key].Str? && 1 <= |input[key].s| < 5)
    {
      MaskValueTwiceIff(key, input[key]);
    }
    if "phone" in input && input["phone"].Str? && 1 <= |input["phone"].s| < 5 {
      assert MaskRecipient(once)["phone"] != once["phone"];
    }
  }

  lemma MaskValueTwiceIff(key: string, v: Json)
    ensures MaskedValue(key, MaskedValue(key, v)) == MaskedValue(key, v) <==>
            !(key == "phone" && v.Str? && 1 <= |v.s| < 5)
  {
    TokenFieldsAreSecret();
    hide IsSecret, RedactPhone, RedactEmail;
    if v.Object? {
      RedactTwice(v.fields);
    } else if v.Str? {
      RedactEmailTwice(v.s);
      RedactPhoneTwiceIff(v.s);
      MarkersAreNotEmpty(v.s);
    }
  }

  lemma MarkersAreNotEmpty(s: string)
    ensures RedactEmail(s) != "" && RedactPhone(s) != ""
  {
  }
}
