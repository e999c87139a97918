/**
 * Client chains that start from a fresh root node, with the text and
 * schema each one ends with.
 */
module Scenarios {
  import opened Wrappers
  import opened Decimal
  import opened Schemas
  import opened Groq
  import opened TypeState
  import opened Builder

  method NewRoot() returns (root: Query)
    ensures fresh(root) && root.State() == Root
  {
    root := new Query(UnknownEntity, Payload(Unknown, ""));
  }

  /** root.filter().grabOne("name", s).slice(0) */
  method FirstName(s: Schema) returns (text: string, schema: Schema, kind: Kind)
    ensures text == "[].name[0]" && schema == s && kind == Entity
  {
    assert "[].name" + "[0]" == "[].name[0]";
    var root := NewRoot();
    var all := root.FilterToArray();
    var names := all.GrabOneEach("name", s);
    assert names.query == "[].name";
    assert SliceFragment(0, None) == "[0]" by {
      assert IntToText(0) == "0";
    }
    var first := names.Slice(0);
    text, schema, kind := first.query, first.schema, first.kind;
  }

  /** root.filter().grabOne("items", s).slice(1, 3) */
  method ItemsOneToThree(s: Schema) returns (items: Query)
    ensures fresh(items) && items.kind == Array && items.Valid()
    ensures items.query == "[].items[1..3]" && items.schema == SafeArray(s)
  {
    assert "[].items" + "[1..3]" == "[].items[1..3]";
    var root := NewRoot();
    var all := root.FilterToArray();
    items := all.GrabOneEach("items", s);
    assert items.query == "[].items";
    assert SliceFragment(1, Some(3)) == "[1..3]" by {
      assert IntToText(1) == "1" && IntToText(3) == "3";
    }
    items := items.Slice(1, Some(3));
  }

  /** root.filter().grabOne("items", s).slice(1, 3).order("price desc") */
  method PricedItems(s: Schema) returns (text: string, schema: Schema, kind: Kind)
    ensures text == "[].items[1..3]|order(price desc)" && schema == SafeArray(s) && kind == Array
  {
    assert "[].items[1..3]" + "|order(price desc)" == "[].items[1..3]|order(price desc)";
    var byPrice := [Ordering("price", Desc)];
    assert OrderFragment(byPrice) == "|order(price desc)" by {
      OrderFragmentSingle(byPrice[0]);
    }
    var items := ItemsOneToThree(s);
    var sorted := items.Order(byPrice);
    assert sorted.query == "[].items[1..3]" + "|order(price desc)";
    text, schema, kind := sorted.query, sorted.schema, sorted.kind;
  }

  /** root.deref().grabOne("title", s) */
  method DerefTitle(s: Schema) returns (text: string, schema: Schema, kind: Kind)
    ensures text == "->.title" && schema == s && kind == Entity
  {
    assert "->" + ".title" == "->.title";
    var root := NewRoot();
    var target := root.Deref();
    var title := target.GrabOne("title", s);
    text, schema, kind := title.query, title.schema, title.kind;
  }

  /** An upper bound of 0 is present, so slice(2, 0) keeps the array. */
  method SliceUpToZero() returns (text: string, schema: Schema, kind: Kind, same: bool)
    ensures text == "[][2..0]" && schema == SafeArray(Unknown) && kind == UnknownArray && same
  {
    assert "[]" + "[2..0]" == "[][2..0]";
    var root := NewRoot();
    var all := root.FilterToArray();
    assert SliceFragment(2, Some(0)) == "[2..0]" by {
      assert IntToText(2) == "2" && IntToText(0) == "0";
    }
    var r := all.Slice(2, Some(0));
    text, schema, kind, same := r.query, r.schema, r.kind, r == all;
  }

  /**
   * filter on the root grows the root's own text as well as handing it to
   * a new node; from then on the two nodes grow apart, and a snapshot taken
   * earlier keeps the text it had.
   */
  method FilterAliasing() returns (before: Payload, rootText: string, arrayText: string, distinct: bool)
    ensures before == Payload(Unknown, "") && rootText == "[]->" && arrayText == "[][draft]" && distinct
  {
    assert "[]" + "->" == "[]->";
    assert "[]" + "[draft]" == "[][draft]";
    var root := NewRoot();
    before := root.Value();
    var all := root.FilterToArray();
    assert root.query == "[]" && all.query == "[]";
    var drafts := all.Filter("draft");
    var _ := root.Deref();
    rootText, arrayText, distinct := root.query, drafts.query, root != drafts;
  }
}
