/**
 * emailworker/config.py: a Flask-style configuration object, a mutable
 * mapping that takes the UPPERCASE attributes of an object or of an
 * executed Python file. An object is modelled by its attributes, a map from
 * name to value, so `dir(obj)` is its key set and `getattr` a lookup.
 */
module ConfigModel {
  import opened Types

  predicate IsUpperChar(c: char)
  {
    'A' <= c <= 'Z'
  }

  predicate IsLowerChar(c: char)
  {
    'a' <= c <= 'z'
  }

  /** `str.isupper()` on ASCII text: at least one cased character, and no
      lower-case one. */
  predicate IsUpperName(s: string)
  {
    (exists i :: 0 <= i < |s| && IsUpperChar(s[i])) && forall i :: 0 <= i < |s| ==> !IsLowerChar(s[i])
  }

  /** The attributes `from_object` copies. */
  function UpperAttributes(obj: map<string, Value>): (r: map<string, Value>)
    ensures forall k :: k in r <==> k in obj && IsUpperName(k)
    ensures forall k :: k in r ==> r[k] == obj[k]
  {
    map k | k in obj && IsUpperName(k) :: obj[k]
  }

  /** The entries after `from_object(obj)` on a configuration holding `m`. */
  function ApplyObject(m: map<string, Value>, obj: map<string, Value>): map<string, Value>
  {
    m + UpperAttributes(obj)
  }

  /** Every UPPERCASE attribute of `obj` is stored under its name with its value. */
  lemma FromObjectWritesUpper(m: map<string, Value>, obj: map<string, Value>, k: string)
    requires k in obj && IsUpperName(k)
    ensures k in ApplyObject(m, obj) && ApplyObject(m, obj)[k] == obj[k]
  {
  }

  /** A key is written only if it names an UPPERCASE attribute: every other
      entry keeps its value, none is removed, and no other key appears. */
  lemma FromObjectKeepsOthers(m: map<string, Value>, obj: map<string, Value>)
    ensures m.Keys <= ApplyObject(m, obj).Keys
    ensures forall k :: k in ApplyObject(m, obj) ==> k in m || (k in obj && IsUpperName(k))
    ensures forall k :: k in m && !(k in obj && IsUpperName(k)) ==> ApplyObject(m, obj)[k] == m[k]
  {
  }

  /** Taking the same object twice is taking it once. */
  lemma FromObjectIdempotent(m: map<string, Value>, obj: map<string, Value>)
    ensures ApplyObject(ApplyObject(m, obj), obj) == ApplyObject(m, obj)
  {
  }

  /** Names with no cased character are not UPPERCASE: dunder names and
      names of digits and underscores are never copied. */
  lemma UncasedIsNotUpper(s: string)
    requires forall i :: 0 <= i < |s| ==> !IsUpperChar(s[i])
    ensures !IsUpperName(s)
  {
  }

  /** Examples: `SMTP_HOST` and `RABBITMQ_HOST` are UPPERCASE, `__file__`,
      `Queue` and `_1` are not. */
  lemma UpperNameExamples()
    ensures IsUpperName("SMTP_HOST") && IsUpperName("RABBITMQ_HOST") && IsUpperName("QUEUE")
    ensures !IsUpperName("__file__") && !IsUpperName("Queue") && !IsUpperName("_1")
  {
    assert IsUpperChar("SMTP_HOST"[0]) && IsUpperChar("RABBITMQ_HOST"[0]) && IsUpperChar("QUEUE"[0]);
    assert IsLowerChar("__file__"[2]) && IsLowerChar("Queue"[1]);
    assert forall i :: 0 <= i < |"_1"| ==> !IsUpperChar("_1"[i]);
  }

  /** The attributes of a fresh module named `config` once `__file__` is set
      and exec has added `__builtins__`. */
  function ModuleAttributes(filename: string): map<string, Value>
  {
    map["__name__" := Str("config"), "__doc__" := NoneV, "__package__" := NoneV,
        "__loader__" := NoneV, "__spec__" := NoneV, "__file__" := Str(filename),
        "__builtins__" := NoneV]
  }

  /** The namespace an executed config file leaves in its module: the
      module's own attributes, then whatever the file binds. */
  function ModuleNamespace(filename: string, script: map<string, Value>): (ns: map<string, Value>)
    ensures forall k :: k in script ==> k in ns && ns[k] == script[k]
  {
    ModuleAttributes(filename) + script
  }

  /** A name with a lower-case letter is not UPPERCASE. */
  lemma LowerIsNotUpper(s: string, i: nat)
    requires i < |s| && IsLowerChar(s[i])
    ensures !IsUpperName(s)
  {
  }

  /** None of a module's own attribute names is UPPERCASE. */
  lemma ModuleAttributesNotUpper(filename: string)
    ensures forall k :: k in ModuleAttributes(filename) ==> !IsUpperName(k)
  {
    LowerIsNotUpper("__name__", 2);
    LowerIsNotUpper("__doc__", 2);
    LowerIsNotUpper("__package__", 2);
    LowerIsNotUpper("__loader__", 2);
    LowerIsNotUpper("__spec__", 2);
    LowerIsNotUpper("__file__", 2);
    LowerIsNotUpper("__builtins__", 2);
  }

  /** The module's own attributes are never copied: `from_pyfile` takes
      exactly the file's UPPERCASE bindings. */
  lemma PyfileTakesScriptOnly(filename: string, script: map<string, Value>)
    ensures UpperAttributes(ModuleNamespace(filename, script)) == UpperAttributes(script)
  {
    ModuleAttributesNotUpper(filename);
  }

  /** The attributes of class DefaultConfig. */
  function DefaultConfig(): map<string, Value>
  {
    map["RABBITMQ_HOST" := Str("localhost"), "SMTP_HOST" := Str("localhost"), "QUEUE" := Str("emails")]
  }

  /** Taking DefaultConfig into an empty configuration stores all three of
      its settings: both hosts `localhost`, the queue `emails`. */
  lemma DefaultConfigValues()
    ensures var c := ApplyObject(map[], DefaultConfig());
      && c == DefaultConfig()
      && c["RABBITMQ_HOST"] == c["SMTP_HOST"] == Str("localhost")
      && c["QUEUE"] == Str("emails")
  {
    UpperNameExamples();
  }

  /** `class Config(dict)` */
  class Config {
    var entries: map<string, Value>

    constructor()
      ensures entries == map[]
    {
      entries := map[];
    }

    /** `from_object(obj)`: visit every name of `dir(obj)` and store the
        UPPERCASE ones. */
    method FromObject(obj: map<string, Value>)
      modifies this
      ensures entries == ApplyObject(old(entries), obj)
    {
      var names := obj.Keys;
      ghost var visited: set<string> := {};
      while names != {}
        invariant names + visited == obj.Keys && names !! visited
        invariant forall k :: k in entries <==> k in old(entries) || (k in visited && IsUpperName(k))
        invariant forall k :: k in entries ==>
                    entries[k] == if k in visited && IsUpperName(k) then obj[k] else old(entries)[k]
        decreases names
      {
        var key :| key in names;
        if IsUpperName(key) {
          entries := entries[key := obj[key]];
        }
        names := names - {key};
        visited := visited + {key};
      }
    }

    /** `from_pyfile(filename)`: execute the file in a fresh module and take
        its UPPERCASE attributes; `script` is what executing the file binds. */
    method FromPyfile(filename: string, script: map<string, Value>) returns (ok: bool)
      modifies this
      ensures ok
      ensures entries == ApplyObject(old(entries), ModuleNamespace(filename, script))
    {
      var d := ModuleNamespace(filename, script);
      FromObject(d);
      return true;
    }

    /** `update(layer)`: every key of `layer` is set to its value. */
    method Update(layer: map<string, Value>)
      modifies this
      ensures entries == old(entries) + layer
    {
      entries := entries + layer;
    }
  }
}
