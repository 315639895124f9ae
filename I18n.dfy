/**
 * Translation lookup (packages/i18n/src/utils.ts): a module-level message
 * table replaced by `setLocale`, and `t`, which walks a dotted key through
 * the nested table and fills `{name}` placeholders.
 */
module I18n {
  import opened Wrappers
  import opened Strings

  /** A translation message: a string leaf or a nested table. */
  datatype Message = Text(text: string) | Table(entries: map<string, Message>)

  /**
   * `value?.[k]`: the entry of a table. A string leaf has no entries here
   * (see the README for the string indices and properties JavaScript would find).
   */
  function Descend(m: Message, k: string): Option<Message> {
    if m.Table? && k in m.entries then Some(m.entries[k]) else None
  }

  /** The message reached by following `keys` from `m`, or None when a segment is missing. */
  function Lookup(m: Message, keys: seq<string>): Option<Message>
    decreases |keys|
  {
    if keys == [] then Some(m)
    else match Descend(m, keys[0]) {
      case None => None
      case Some(child) => Lookup(child, keys[1..])
    }
  }

  /** The placeholder a variable fills: its name in curly braces. */
  function Placeholder(name: string): string {
    "{" + name + "}"
  }

  /**
   * A variable name that `new RegExp("{" + name + "}", "g")` reads as the
   * literal text `{name}`: an identifier made of ASCII letters, digits and '_'.
   */
  predicate PlainName(name: string) {
    && |name| > 0
    && !('0' <= name[0] <= '9')
    && forall i :: 0 <= i < |name| ==>
         'a' <= name[i] <= 'z' || 'A' <= name[i] <= 'Z' || '0' <= name[i] <= '9' || name[i] == '_'
  }

  /** Variables in `Object.entries` order, each value already turned into its string form. */
  type Vars = seq<(string, string)>

  predicate PlainVars(vars: Vars) {
    forall i :: 0 <= i < |vars| ==> PlainName(vars[i].0)
  }

  /** Every placeholder of each variable, in the given order, replaced by that variable's value. */
  function Substitute(s: string, vars: Vars): string
    decreases |vars|
  {
    if vars == [] then s
    else Substitute(ReplaceAll(s, Placeholder(vars[0].0), vars[0].1), vars[1..])
  }

  /** What `t(key, vars)` returns for a given table. */
  function Translate(messages: map<string, Message>, key: string, vars: Option<Vars>): string
    requires vars.Some? ==> PlainVars(vars.value)
  {
    match Lookup(Table(messages), Split(key, ".")) {
      case Some(Text(s)) => if vars.Some? then Substitute(s, vars.value) else s
      case _ => key
    }
  }

  /** The module holding the current locale's messages. */
  class Translator {
    var messages: map<string, Message>

    /** Before any locale is set, the table is empty. */
    constructor()
      ensures messages == map[]
    {
      messages := map[];
    }

    /** `setLocale`: the loaded table replaces the current one entirely. */
    method SetLocale(loaded: map<string, Message>)
      modifies this
      ensures messages == loaded
    {
      messages := loaded;
    }

    /** `t`: descend segment by segment, return the key on a miss, then substitute the variables. */
    method T(key: string, vars: Option<Vars>) returns (r: string)
      requires vars.Some? ==> PlainVars(vars.value)
      ensures r == Translate(messages, key, vars)
    {
      var keys := Split(key, ".");
      var value := Table(messages);
      for i := 0 to |keys|
        invariant Lookup(Table(messages), keys) == Lookup(value, keys[i..])
      {
        assert keys[i..][1..] == keys[i + 1..];
        var next := Descend(value, keys[i]);
        if next.None? {
          return key;
        }
        value := next.value;
      }
      if value.Text? && vars.Some? {
        var text := value.text;
        var entries := vars.value;
        for j := 0 to |entries|
          invariant Substitute(text, entries[j..]) == Substitute(value.text, entries)
        {
          assert entries[j..][1..] == entries[j + 1..];
          text := ReplaceAll(text, Placeholder(entries[j].0), entries[j].1);
        }
        return text;
      }
      return if value.Text? then value.text else key;
    }
  }

  // ---- the lookup ----

  /** Following one more segment from where a path leads. */
  lemma {:induction false} LookupSnoc(m: Message, keys: seq<string>, k: string)
    ensures Lookup(m, keys + [k]) == (if Lookup(m, keys).Some? then Descend(Lookup(m, keys).value, k) else None)
    decreases |keys|
  {
    if keys != [] {
      assert (keys + [k])[1..] == keys[1..] + [k];
      match Descend(m, keys[0]) {
        case None =>
        case Some(child) => LookupSnoc(child, keys[1..], k);
      }
    }
  }

  /** A path that is missing a segment part way is missing as a whole. */
  lemma {:induction false} LookupMissingPrefix(m: Message, keys: seq<string>, i: int)
    requires 0 <= i <= |keys|
    ensures Lookup(m, keys[..i]) == None ==> Lookup(m, keys) == None
    decreases i
  {
    if i == 0 {
      assert keys[..0] == [];
    } else {
      assert keys[..i][0] == keys[0];
      assert keys[..i][1..] == keys[1..][..i - 1];
      match Descend(m, keys[0]) {
        case None =>
        case Some(child) => LookupMissingPrefix(child, keys[1..], i - 1);
      }
    }
  }

  /** When any segment of the key is missing, `t` returns the key itself. */
  lemma TranslateMissingSegment(messages: map<string, Message>, key: string, vars: Option<Vars>, i: int)
    requires vars.Some? ==> PlainVars(vars.value)
    requires 0 <= i <= |Split(key, ".")|
    requires Lookup(Table(messages), Split(key, ".")[..i]) == None
    ensures Translate(messages, key, vars) == key
  {
    LookupMissingPrefix(Table(messages), Split(key, "."), i);
  }

  /** When the key leads to a sub-table rather than a string, `t` returns the key. */
  lemma TranslateSubTable(messages: map<string, Message>, key: string, vars: Option<Vars>, sub: map<string, Message>)
    requires vars.Some? ==> PlainVars(vars.value)
    requires Lookup(Table(messages), Split(key, ".")) == Some(Table(sub))
    ensures Translate(messages, key, vars) == key
  {
  }

  /** A two-segment key `a.b` descends into table `a` and then to entry `b`. */
  lemma TranslateNested(messages: map<string, Message>, a: string, b: string, s: string)
    requires !Contains(a, ".") && !Contains(b, ".")
    requires a in messages && messages[a].Table? && b in messages[a].entries
    requires messages[a].entries[b] == Text(s)
    ensures Translate(messages, a + "." + b, None) == s
  {
    SplitJoin([a, b], ".");
    assert Join([a, b], ".") == a + "." + b by {
      assert Join([a, b][1..], ".") == b;
    }
    assert [a, b][1..] == [b] && [b][1..] == [];
    assert Lookup(messages[a], [b]) == Some(Text(s));
  }

  /** A key without "." is looked up at the top of the table only. */
  lemma TranslateTopLevel(messages: map<string, Message>, key: string, vars: Option<Vars>)
    requires vars.Some? ==> PlainVars(vars.value)
    requires !Contains(key, ".")
    ensures key !in messages ==> Translate(messages, key, vars) == key
    ensures key in messages && messages[key].Text? && vars.None? ==> Translate(messages, key, vars) == messages[key].text
  {
    SplitAbsent(key, ".");
    assert [key][1..] == [];
    if key in messages {
      assert Lookup(Table(messages), [key]) == Lookup(messages[key], []);
    }
  }

  /** Without variables a string found is returned as it is; with variables it is substituted. */
  lemma TranslateFound(messages: map<string, Message>, key: string, vars: Option<Vars>, s: string)
    requires vars.Some? ==> PlainVars(vars.value)
    requires Lookup(Table(messages), Split(key, ".")) == Some(Text(s))
    ensures vars.None? ==> Translate(messages, key, vars) == s
    ensures vars.Some? ==> Translate(messages, key, vars) == Substitute(s, vars.value)
  {
  }

  // ---- substitution ----

  /** The variables are applied one after another in their given order. */
  lemma {:induction false} SubstituteInOrder(s: string, first: Vars, second: Vars)
    ensures Substitute(s, first + second) == Substitute(Substitute(s, first), second)
    decreases |first|
  {
    if first == [] {
      assert first + second == second;
    } else {
      assert (first + second)[1..] == first[1..] + second;
      SubstituteInOrder(ReplaceAll(s, Placeholder(first[0].0), first[0].1), first[1..], second);
    }
  }

  /** One variable: the text between its placeholders is rejoined with the value in their place. */
  lemma SubstituteOne(s: string, name: string, value: string)
    requires PlainName(name)
    ensures Substitute(s, [(name, value)]) == Join(Split(s, Placeholder(name)), value)
  {
    ReplaceAllIsSplitJoin(s, Placeholder(name), value);
  }

  /** Text without any '{' has no placeholder and comes back unchanged. */
  lemma {:induction false} SubstituteNoBrace(s: string, vars: Vars)
    requires '{' !in s
    ensures Substitute(s, vars) == s
    decreases |vars|
  {
    if vars != [] {
      ContainsNeedsFirstChar(s, Placeholder(vars[0].0));
      ReplaceAllAbsent(s, Placeholder(vars[0].0), vars[0].1);
      SubstituteNoBrace(s, vars[1..]);
    }
  }

  /** A variable whose value is its own placeholder changes nothing. */
  lemma SubstituteIdentity(s: string, name: string)
    ensures Substitute(s, [(name, Placeholder(name))]) == s
  {
    ReplaceAllBySelf(s, Placeholder(name));
  }
}
