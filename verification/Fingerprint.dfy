/** `app/detection/fingerprint.py`: deterministic alert identifiers. */
module Fingerprint {
  import opened Ordering
  import Text

  datatype AlertType =
    | SlaBreach | SlaApproaching | RecurringIssue | KnownIssuePattern | CarrierPattern | OverduePickup

  function TypeName(t: AlertType): string {
    match t
    case SlaBreach => "sla_breach"
    case SlaApproaching => "sla_approaching"
    case RecurringIssue => "recurring_issue"
    case KnownIssuePattern => "known_issue_pattern"
    case CarrierPattern => "carrier_pattern"
    case OverduePickup => "overdue_pickup"
  }

  /** The text that is hashed: four fields, the last the sorted set of entities. */
  function Key(t: AlertType, window: string, version: string, entities: seq<string>): string {
    Text.Join('|', [TypeName(t), window, version, Text.Join(',', SortDistinct(Text.Less, entities))])
  }

  /** `digest` is SHA-256 cut to sixteen hexadecimal digits; its collisions are not modelled,
      so laws that need two keys to have two digests ask for `Injective(digest)`. */
  function AlertId(digest: string -> string, t: AlertType, window: string, version: string,
                   entities: seq<string>): string {
    "ALERT-" + digest(Key(t, window, version, entities))
  }

  ghost predicate Injective(digest: string -> string) {
    forall x, y :: digest(x) == digest(y) ==> x == y
  }

  ghost predicate Plain(field: string) {
    '|' !in field
  }

  ghost predicate PlainEntities(entities: seq<string>) {
    forall e :: e in entities ==> e != [] && '|' !in e && ',' !in e
  }

  lemma TypeNames(t: AlertType, u: AlertType)
    ensures Plain(TypeName(t))
    ensures TypeName(t) == TypeName(u) ==> t == u
  {
    // Names of one length differ at the first letter.
    assert |TypeName(SlaBreach)| == 10 && |TypeName(KnownIssuePattern)| == 19;
    assert |TypeName(SlaApproaching)| == |TypeName(RecurringIssue)| == |TypeName(CarrierPattern)| == 15;
    assert |TypeName(OverduePickup)| == 14;
    assert TypeName(SlaApproaching)[0] == 's';
    assert TypeName(RecurringIssue)[0] == 'r';
    assert TypeName(CarrierPattern)[0] == 'c';
  }

  /** Whatever the other fields contain, the key begins with its type. */
  lemma KeyTellsType(t: AlertType, w: string, v: string, es: seq<string>,
                     t': AlertType, w': string, v': string, es': seq<string>)
    requires Key(t, w, v, es) == Key(t', w', v', es')
    ensures t == t'
  {
    KeyHead(t, w, v, es);
    KeyHead(t', w', v', es');
    TypeNames(t, t');
  }

  lemma KeyHead(t: AlertType, w: string, v: string, es: seq<string>)
    ensures Text.Split('|', Key(t, w, v, es))[0] == TypeName(t)
  {
    TypeNames(t, t);
    var fields := [TypeName(t), w, v, Text.Join(',', SortDistinct(Text.Less, es))];
    Text.SplitHead('|', TypeName(t), Text.Join('|', fields[1..]));
    assert Text.Join('|', fields) == TypeName(t) + ['|'] + Text.Join('|', fields[1..]);
  }

  lemma KeyFields(t: AlertType, w: string, v: string, es: seq<string>)
    requires Plain(w) && Plain(v) && PlainEntities(es)
    ensures Text.Split('|', Key(t, w, v, es))
         == [TypeName(t), w, v, Text.Join(',', SortDistinct(Text.Less, es))]
  {
    TypeNames(t, t);
    Text.LessStrictTotal();
    SortDistinctSorts(Text.Less, es);
    Text.JoinAvoids(',', SortDistinct(Text.Less, es), '|');
    Text.SplitJoin('|', [TypeName(t), w, v, Text.Join(',', SortDistinct(Text.Less, es))]);
  }

  /** The fingerprint is canonical and faithful: two keys are equal exactly for the same type,
      window, version and set of entities. */
  lemma KeyEqualExactlyWhen(t: AlertType, w: string, v: string, es: seq<string>,
                            t': AlertType, w': string, v': string, es': seq<string>)
    requires Plain(w) && Plain(v) && PlainEntities(es)
    requires Plain(w') && Plain(v') && PlainEntities(es')
    ensures Key(t, w, v, es) == Key(t', w', v', es') <==>
              t == t' && w == w' && v == v' && (forall e :: e in es <==> e in es')
  {
    Text.LessStrictTotal();
    var sorted, sorted' := SortDistinct(Text.Less, es), SortDistinct(Text.Less, es');
    SortDistinctSorts(Text.Less, es);
    SortDistinctSorts(Text.Less, es');
    SortDistinctCanonical(Text.Less, es, es');
    KeyFields(t, w, v, es);
    KeyFields(t', w', v', es');
    if Key(t, w, v, es) == Key(t', w', v', es') {
      var fields := Text.Split('|', Key(t, w, v, es));
      TypeNames(t, t');
      assert fields[0] == TypeName(t) == TypeName(t');
      assert fields[1] == w == w' && fields[2] == v == v';
      assert fields[3] == Text.Join(',', sorted) == Text.Join(',', sorted');
      Text.JoinInjective(',', sorted, sorted');
    }
  }

  /** An alert id is its prefix and a digest, so under a digest without collisions two ids are equal
      exactly when the keys are. */
  lemma IdEqualExactlyWhen(digest: string -> string, t: AlertType, w: string, v: string, es: seq<string>,
                           t': AlertType, w': string, v': string, es': seq<string>)
    requires Injective(digest)
    ensures "ALERT-" <= AlertId(digest, t, w, v, es)
    ensures AlertId(digest, t, w, v, es) == AlertId(digest, t', w', v', es') <==> Key(t, w, v, es) == Key(t', w', v', es')
  {
    hide Key;
    assert AlertId(digest, t, w, v, es)[6..] == digest(Key(t, w, v, es));
    assert AlertId(digest, t', w', v', es')[6..] == digest(Key(t', w', v', es'));
  }
}
