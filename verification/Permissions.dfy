/** The permission gate: exact tool id, then a prefix wildcard, then the tool's category. */
module Permissions {
  import opened Common
  import opened Board

  datatype Registry = Registry(
    karakas: map<string, map<string, Permission>>,  // karaka id -> its permission table
    categories: map<string, string>)                // tool id -> category

  predicate IsWildcardFor(key: string, tool: string) {
    |key| > 0 && key[|key| - 1] == '*' && key[..|key| - 1] <= tool
  }

  function Matching(table: map<string, Permission>, tool: string): set<string> {
    set key | key in table && IsWildcardFor(key, tool)
  }

  function CategoryKey(r: Registry, tool: string): string {
    (if tool in r.categories then r.categories[tool] else "") + ".*"
  }

  /** Every answer the lookup can give: the wildcard loop walks a map in any order. */
  function Answers(r: Registry, karaka: string, tool: string): set<Permission> {
    if karaka !in r.karakas then {Deny}
    else
      var table := r.karakas[karaka];
      if tool in table then {table[tool]}
      else if Matching(table, tool) != {} then set key | key in Matching(table, tool) :: table[key]
      else if CategoryKey(r, tool) in table then {table[CategoryKey(r, tool)]}
      else {Deny}
  }

  /** The entry says something about the tool: by its name, by a prefix of it, or by its category. */
  ghost predicate Concerns(r: Registry, key: string, tool: string) {
    || key == tool
    || (exists prefix: string :: key == prefix + "*" && prefix <= tool)
    || (if tool in r.categories then key == r.categories[tool] + ".*" else key == ".*")
  }

  /** Nothing is allowed by default: whatever is not denied has an entry of the karaka's own that says so. */
  lemma NothingIsAllowedByDefault(r: Registry, karaka: string, tool: string, p: Permission)
    requires p in Answers(r, karaka, tool)
    ensures p != Deny ==>
              karaka in r.karakas && exists key :: key in r.karakas[karaka] && r.karakas[karaka][key] == p && Concerns(r, key, tool)
    ensures (karaka !in r.karakas || forall key | key in r.karakas[karaka] :: !Concerns(r, key, tool)) ==> p == Deny
  {
    if karaka in r.karakas {
      var table := r.karakas[karaka];
      if tool in table {
        assert Concerns(r, tool, tool);
      } else if key :| key in Matching(table, tool) && table[key] == p {
        assert key == key[..|key| - 1] + "*";
        assert Concerns(r, key, tool);
      } else if CategoryKey(r, tool) in table {
        assert Concerns(r, CategoryKey(r, tool), tool);
      }
    }
  }

  /** An exact entry overrides every wildcard, and a matching wildcard the category. */
  ghost predicate BestEntry(r: Registry, karaka: string, tool: string, p: Permission) {
    if karaka !in r.karakas then p == Deny
    else
      var table := r.karakas[karaka];
      if tool in table then p == table[tool]
      else if exists prefix: string :: prefix + "*" in table && prefix <= tool then
        exists prefix: string :: prefix + "*" in table && prefix <= tool && p == table[prefix + "*"]
      else if CategoryKey(r, tool) in table then p == table[CategoryKey(r, tool)]
      else p == Deny
  }

  lemma AnswersAreBest(r: Registry, karaka: string, tool: string, p: Permission)
    ensures p in Answers(r, karaka, tool) <==> BestEntry(r, karaka, tool, p)
  {
    if karaka in r.karakas && tool !in r.karakas[karaka] {
      var table := r.karakas[karaka];
      forall prefix: string | prefix + "*" in table && prefix <= tool ensures prefix + "*" in Matching(table, tool) {
        assert (prefix + "*")[..|prefix + "*"| - 1] == prefix;
      }
      forall key | key in Matching(table, tool) ensures key == key[..|key| - 1] + "*" && key[..|key| - 1] <= tool {
      }
    }
  }

  method CheckPermission(r: Registry, karaka: string, tool: string) returns (p: Permission)
    ensures p in Answers(r, karaka, tool) && BestEntry(r, karaka, tool, p)
  {
    forall q ensures q in Answers(r, karaka, tool) <==> BestEntry(r, karaka, tool, q) {
      AnswersAreBest(r, karaka, tool, q);
    }
    hide BestEntry;
    if karaka !in r.karakas {
      return Deny;
    }
    var table := r.karakas[karaka];
    if tool in table {
      return table[tool];
    }
    var todo := table.Keys;
    while todo != {}
      invariant todo <= table.Keys
      invariant forall key | key in table && key !in todo :: !IsWildcardFor(key, tool)
      decreases todo
    {
      var key :| key in todo;
      if IsWildcardFor(key, tool) {
        assert key in Matching(table, tool);
        return table[key];
      }
      todo := todo - {key};
    }
    assert Matching(table, tool) == {};
    var category := CategoryKey(r, tool);
    if category !in table {
      return Deny;
    }
    return table[category];
  }

  /** All wildcards that match the tool say the same, or an exact entry overrides them. */
  ghost predicate Unambiguous(r: Registry, karaka: string, tool: string) {
    karaka in r.karakas && tool !in r.karakas[karaka] ==>
      forall k1, k2 | k1 in Matching(r.karakas[karaka], tool) && k2 in Matching(r.karakas[karaka], tool) ::
        r.karakas[karaka][k1] == r.karakas[karaka][k2]
  }

  /** There is always an answer, and it does not depend on the map order exactly if the wildcards agree. */
  lemma AnswerIsUniqueIffUnambiguous(r: Registry, karaka: string, tool: string)
    ensures Answers(r, karaka, tool) != {}
    ensures (forall p, q | p in Answers(r, karaka, tool) && q in Answers(r, karaka, tool) :: p == q)
            <==> Unambiguous(r, karaka, tool)
  {
    if karaka in r.karakas && tool !in r.karakas[karaka] && Matching(r.karakas[karaka], tool) != {} {
      var table := r.karakas[karaka];
      var key :| key in Matching(table, tool);
      assert table[key] in Answers(r, karaka, tool);
      forall k | k in Matching(table, tool) ensures table[k] in Answers(r, karaka, tool) {
      }
    }
  }

  /** Merging entries into an existing table; an unknown karaka is ignored. */
  method SetPermissions(r0: Registry, karaka: string, entries: map<string, Permission>) returns (r: Registry)
    ensures karaka !in r0.karakas ==> r == r0
    ensures karaka in r0.karakas ==> r == r0.(karakas := r0.karakas[karaka := r0.karakas[karaka] + entries])
  {
    r := r0;
    if karaka !in r.karakas {
      return;
    }
    var table := r.karakas[karaka];
    var todo := entries.Keys;
    while todo != {}
      invariant todo <= entries.Keys
      invariant table == r0.karakas[karaka] + (entries - todo)
      decreases todo
    {
      var key :| key in todo;
      table := table[key := entries[key]];
      todo := todo - {key};
    }
    assert entries - todo == entries;
    r := r.(karakas := r.karakas[karaka := table]);
  }

  /** A newly set exact entry decides the gate whatever the wildcards say. */
  lemma ExactEntryDecides(r: Registry, karaka: string, tool: string, p: Permission)
    requires karaka in r.karakas
    ensures Answers(r.(karakas := r.karakas[karaka := r.karakas[karaka] + map[tool := p]]), karaka, tool) == {p}
  {
  }
}
