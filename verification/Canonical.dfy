/** The structural form of a member decides equality up to a renaming of records. */
module Canonical {
  import opened Wrappers
  import opened LidlTypes
  import opened ShapeText
  import opened FirstReference
  import opened Renaming
  import opened Structure
  import opened Signatures
  import opened SpelledForms

  // The contracts are those that the validator accepts (`src/logos_bridge/lidl.py`, `Interface.structural`,
  // `member_signature`).

  // ---------------------------------------------------------------- renamings of contracts

  /** `phi` is a bijection between the records that the two members reach; writing `phi` into the
      first member's spellings, and into those of its records, gives the second's. Field names stay,
      and the names of parameters do not count. */
  ghost predicate CarriesSpelling(phi: Names, table: Table, m: Member, other: Table, n: Member) {
    && Bijects(phi, SlotGraph(table), MemberRoots(m), SlotGraph(other), MemberRoots(n))
    && FormSig(m, phi) == FormSig(n, map[])
    && RecordsCarried(phi, table, other)
  }

  predicate RecordsCarried(phi: Names, table: Table, other: Table) {
    forall x :: x in phi ==> x in table && phi[x] in other && SubFields(table[x], phi) == SubFields(other[phi[x]], map[])
  }

  lemma CarrierSpellable(phi: Names, table: Table, other: Table)
    requires SpeltTable(table) && SpeltTable(other) && forall x :: x in phi ==> x in table && phi[x] in other
    ensures Spellable(phi)
  {
  }

  lemma RenameSigNone(s: Sig)
    ensures RenameSig(s, map[]) == s
  {
    RenameNoneAll(s.params);
    if s.result.Some? {
      RenameNone(s.result.value);
    }
  }

  lemma CarriedFieldsIff(phi: Names, table: Table, other: Table, x: string)
    requires SpeltTable(table) && SpeltTable(other) && Spellable(phi) && x in phi && x in table && phi[x] in other
    ensures SubFields(table[x], phi) == SubFields(other[phi[x]], map[]) <==>
      RenameFields(TableTrees(table)[x], phi) == TableTrees(other)[phi[x]]
  {
    FieldsAlikeIff(table[x], phi, other[phi[x]], map[]);
    RenameFieldsNone(FieldTrees(other[phi[x]]));
  }

  lemma RecordsEither(phi: Names, table: Table, other: Table)
    requires SpeltTable(table) && SpeltTable(other)
    ensures RecordsCarried(phi, table, other) <==> DeclCarried(phi, TableTrees(table), TableTrees(other))
    ensures RecordsCarried(phi, table, other) ==> Spellable(phi)
  {
    if forall x :: x in phi ==> x in table && phi[x] in other {
      CarrierSpellable(phi, table, other);
      forall x | x in phi
        ensures SubFields(table[x], phi) == SubFields(other[phi[x]], map[]) <==>
          RenameFields(TableTrees(table)[x], phi) == TableTrees(other)[phi[x]]
      {
        CarriedFieldsIff(phi, table, other, x);
      }
    }
  }

  lemma SigEither(phi: Names, m: Member, n: Member)
    requires SpeltSlots(AllSlots(m)) && SpeltSlots(AllSlots(n)) && Spellable(phi)
    ensures FormSig(m, phi) == FormSig(n, map[]) <==> RenameSig(SigTrees(m), phi) == SigTrees(n)
  {
    SigsAlikeIff(m, phi, n, map[]);
    RenameSigNone(SigTrees(n));
  }

  lemma CarriesEither(phi: Names, table: Table, m: Member, other: Table, n: Member)
    requires SpeltTable(table) && SpeltTable(other) && SpeltSlots(AllSlots(m)) && SpeltSlots(AllSlots(n))
    ensures CarriesSpelling(phi, table, m, other, n) <==>
      Carries(phi, TableTrees(table), SigTrees(m), TableTrees(other), SigTrees(n))
  {
    SameGraph(table);
    SameGraph(other);
    SameRoots(m);
    SameRoots(n);
    RecordsEither(phi, table, other);
    if RecordsCarried(phi, table, other) {
      SigEither(phi, m, n);
    }
  }

  lemma DeclaredEither(table: Table, m: Member)
    requires SpeltTable(table) && SpeltSlots(AllSlots(m)) && Declared(table, m)
    ensures AllDeclared(TableTrees(table), SigTrees(m))
  {
    SameRoots(m);
    forall r | r in TableTrees(table)
      ensures Members(Refs(TableTrees(table)[r])) <= TableTrees(table).Keys
    {
      RecordMentions(table, r);
    }
  }

  /** Two members have equal structural signatures exactly when they differ by a renaming of the
      records they reach. */
  lemma EqualSignaturesIffRenaming(table: Table, m: Member, other: Table, n: Member)
    requires SpeltTable(table) && SpeltTable(other) && SpeltSlots(AllSlots(m)) && SpeltSlots(AllSlots(n))
    requires Declared(table, m) && Declared(other, n)
    ensures StructuralForm(table, m) == StructuralForm(other, n) <==>
      exists phi :: CarriesSpelling(phi, table, m, other, n)
  {
    FormsAlikeIff(table, m, other, n);
    DeclaredEither(table, m);
    DeclaredEither(other, n);
    SameFormIffRenaming(TableTrees(table), SigTrees(m), TableTrees(other), SigTrees(n));
    forall phi: Names
      ensures CarriesSpelling(phi, table, m, other, n) <==>
        Carries(phi, TableTrees(table), SigTrees(m), TableTrees(other), SigTrees(n))
    {
      CarriesEither(phi, table, m, other, n);
    }
  }
}
