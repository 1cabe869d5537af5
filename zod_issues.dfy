/**
 * The part of zod's behaviour the schemas rely on. A failed `safeParse`
 * yields the list `error.errors`; each entry has a path and a message.
 * Every string check (`min`, `max`, `email`) and every `refine` of the
 * schemas here is non-fatal, so all failing checks of a field report, in the
 * order they are declared, and an object's `superRefine` still runs after
 * its fields reported issues.
 */
module ZodIssues {

  datatype Issue = Issue(path: seq<string>, message: string)

  /** The message every "required" rule of the schemas uses. */
  const FillIn: string := "Please fill this in"

  /** One check: no issue when `ok`, otherwise a single issue at `path`. */
  function Check(ok: bool, path: seq<string>, message: string): seq<Issue>
  {
    if ok then [] else [Issue(path, message)]
  }

  /**
   * The key under which the signup wizard files an issue: `error.path[0]`.
   * An issue with an empty path is filed under "undefined", the property
   * name JavaScript uses for an undefined key.
   */
  function Key(i: Issue): string
  {
    if |i.path| > 0 then i.path[0] else "undefined"
  }

  /** The messages of the issues filed under `key`, in order. */
  function MessagesAt(issues: seq<Issue>, key: string): seq<string>
  {
    if issues == [] then []
    else (if Key(issues[0]) == key then [issues[0].message] else []) + MessagesAt(issues[1..], key)
  }

  lemma {:induction false} MessagesAtConcat(a: seq<Issue>, b: seq<Issue>, key: string)
    ensures MessagesAt(a + b, key) == MessagesAt(a, key) + MessagesAt(b, key)
  {
    if a != [] {
      assert (a + b)[0] == a[0];
      assert (a + b)[1..] == a[1..] + b;
      MessagesAtConcat(a[1..], b, key);
    } else {
      assert a + b == b;
    }
  }

  lemma MessagesAtConcat3(a: seq<Issue>, b: seq<Issue>, c: seq<Issue>, key: string)
    ensures MessagesAt(a + (b + c), key) == MessagesAt(a, key) + MessagesAt(b, key) + MessagesAt(c, key)
  {
    MessagesAtConcat(a, b + c, key);
    MessagesAtConcat(b, c, key);
  }

  /** A key that no issue is filed under has no messages. */
  lemma {:induction false} MessagesAtAbsent(issues: seq<Issue>, key: string)
    requires SilentOn(issues, key)
    ensures MessagesAt(issues, key) == []
  {
    if issues != [] {
      assert issues[0] in issues;
      MessagesAtAbsent(issues[1..], key);
    }
  }

  /** The messages a single check files under `key`. */
  lemma MessagesAtCheck(ok: bool, field: string, message: string, key: string)
    ensures MessagesAt(Check(ok, [field], message), key) == if !ok && field == key then [message] else []
  {
    if !ok {
      var one := [Issue([field], message)];
      assert Key(one[0]) == field;
      assert one[1..] == [];
    }
  }

  /** Issues before the ones filed under `key` do not change its messages. */
  lemma MessagesAtSkip(a: seq<Issue>, b: seq<Issue>, key: string)
    requires SilentOn(a, key)
    ensures MessagesAt(a + b, key) == MessagesAt(b, key)
  {
    MessagesAtConcat(a, b, key);
    MessagesAtAbsent(a, key);
  }

  /** Nor do issues after them. */
  lemma MessagesAtOnly(a: seq<Issue>, b: seq<Issue>, key: string)
    requires SilentOn(b, key)
    ensures MessagesAt(a + b, key) == MessagesAt(a, key)
  {
    MessagesAtConcat(a, b, key);
    MessagesAtAbsent(b, key);
  }

  /** No issue of `issues` is filed under `key`. */
  predicate SilentOn(issues: seq<Issue>, key: string)
  {
    forall i :: i in issues ==> Key(i) != key
  }

  lemma SilentOnConcat(a: seq<Issue>, b: seq<Issue>, key: string)
    requires SilentOn(a, key) && SilentOn(b, key)
    ensures SilentOn(a + b, key)
  {
  }
}
