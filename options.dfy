/**
 * Options and option lists of the conflict model (Option, ObjectList, OptionList).
 *
 * The conflict owns the master option list; every decision maker, condition and coalition
 * holds an OptionList whose master is that list. Appending to such a list counts a reference
 * on the option and registers it with the master list.
 */
module Options {
  import opened Wrappers
  import opened Seqs
  import opened YesNo

  /** An option, with the reference count and the index and weight set_indexes gives it. */
  class Option {
    const name: string
    var refs: int
    var masterIndex: int
    var decVal: nat

    constructor(name: string)
      ensures this.name == name && refs == 0
    {
      this.name := name;
      refs := 0;
      masterIndex := 0;
      decVal := 0;
    }
  }

  /** What OptionList.append is handed: an option, the name of a new one, or anything else. */
  datatype OptionItem = AnOption(option: Option) | AName(name: string) | Neither

  /** An OptionList: its items and the (conflict's) master list it reports to, if any. */
  class OptionList {
    var items: seq<Option>
    const master: OptionList?

    /** No option is listed twice, here or in the master list, which has no master itself. */
    predicate Valid()
      reads this, master
    {
      && NoDup(items)
      && (master != null ==> master != this && master.master == null && NoDup(master.items))
    }

    constructor(master: OptionList?)
      requires master != null ==> master.master == null && NoDup(master.items)
      ensures Valid() && items == [] && this.master == master
    {
      items := [];
      this.master := master;
    }

    /**
     * set_indexes: the option at position i gets master index i and weight 2^i, so the
     * indices are a bijection onto the positions and the weights are distinct powers of two.
     */
    method SetIndexes()
      requires Valid()
      modifies items
      ensures forall i :: 0 <= i < |items| ==> items[i].masterIndex == i && items[i].decVal == Pow2(i)
      ensures forall o :: o in items ==> items[o.masterIndex] == o
      ensures forall o :: o in items ==> o.refs == old(o.refs)
    {
      for idx := 0 to |items|
        invariant forall i :: 0 <= i < idx ==> items[i].masterIndex == i && items[i].decVal == Pow2(i)
        invariant forall o :: o in items ==> o.refs == old(o.refs)
      {
        items[idx].masterIndex := idx;
        items[idx].decVal := Pow2(idx);
      }
    }

    /**
     * append: an option not yet listed is added at the end, counted as referenced and
     * registered with the master list if that lacks it; a listed option is ignored. A name
     * becomes a new option, registered with the master list. Anything else is ignored.
     */
    method Append(item: OptionItem)
      requires Valid()
      modifies this, master, if item.AnOption? then {item.option} else {}
      ensures Valid()
      ensures item.Neither? || (item.AnOption? && item.option in old(items)) ==>
        items == old(items) && (master != null ==> master.items == old(master.items))
      ensures item.AnOption? && item.option in old(items) ==> item.option.refs == old(item.option.refs)
      ensures item.AnOption? && item.option !in old(items) ==>
        && items == old(items) + [item.option]
        && (master == null ==> item.option.refs == old(item.option.refs))
        && (master != null ==>
            && item.option.refs == old(item.option.refs) + 1
            && master.items == if item.option in old(master.items) then old(master.items)
                               else old(master.items) + [item.option])
      ensures item.AName? ==>
        && |items| == |old(items)| + 1 && items[..|old(items)|] == old(items)
        && var o := items[|old(items)|];
           && fresh(o) && o.name == item.name
           && (master == null ==> o.refs == 0)
           && (master != null ==> o.refs == 1 && master.items == old(master.items) + [o])
    {
      match item {
        case AnOption(o) =>
          if o !in items {
            items := items + [o];
            if master != null {
              o.refs := o.refs + 1;
              if o !in master.items {
                master.items := master.items + [o];
              }
            }
          }
        case AName(name) =>
          var o := new Option(name);
          if master != null {
            master.items := master.items + [o];
            o.refs := o.refs + 1;
          }
          items := items + [o];
        case Neither =>
      }
    }

    /**
     * remove: drops the first occurrence of the option here and then in the master list;
     * ValueError when a list lacks it (after the first removal, if that one succeeded).
     */
    method Remove(item: Option) returns (r: Outcome)
      requires Valid()
      modifies this, master
      ensures Valid()
      ensures item !in old(items) ==>
        r == Fail(ValueError("list.remove(x): x not in list")) && items == old(items)
        && (master != null ==> master.items == old(master.items))
      ensures item in old(items) ==> items == Without(old(items), item) && item !in items
      ensures item in old(items) && master == null ==> r == Pass
      ensures item in old(items) && master != null ==>
        && master.items == Without(old(master.items), item)
        && (r == Pass <==> item in old(master.items))
        && (r != Pass ==> r == Fail(ValueError("list.remove(x): x not in list")))
    {
      if item !in items {
        return Fail(ValueError("list.remove(x): x not in list"));
      }
      WithoutNoDup(items, item);
      items := Without(items, item);
      r := Pass;
      if master != null {
        if item !in master.items {
          return Fail(ValueError("list.remove(x): x not in list"));
        }
        WithoutNoDup(master.items, item);
        master.items := Without(master.items, item);
      }
    }

    /**
     * __delitem__: deletes the option at position key and removes it from the master list;
     * IndexError for a position past the end.
     */
    method DeleteAt(key: nat) returns (r: Outcome)
      requires Valid()
      modifies this, master
      ensures Valid()
      ensures key >= |old(items)| ==>
        r == Fail(IndexError("list index out of range")) && items == old(items)
        && (master != null ==> master.items == old(master.items))
      ensures key < |old(items)| ==> items == old(items)[..key] + old(items)[key + 1..]
      ensures key < |old(items)| && master == null ==> r == Pass
      ensures key < |old(items)| && master != null ==>
        && master.items == Without(old(master.items), old(items)[key])
        && (r == Pass <==> old(items)[key] in old(master.items))
    {
      if key >= |items| {
        return Fail(IndexError("list index out of range"));
      }
      var item := items[key];
      WithoutAt(items, key);
      WithoutNoDup(items, item);
      items := items[..key] + items[key + 1..];
      r := Pass;
      if master != null {
        if item !in master.items {
          return Fail(ValueError("list.remove(x): x not in list"));
        }
        WithoutNoDup(master.items, item);
        master.items := Without(master.items, item);
      }
    }
  }

  /**
   * A fresh OptionList over the master list, with each of xs appended in turn (the loops of
   * Condition(conflict, pairs) and Coalition.refresh): both lists grow by the options they lack.
   */
  method Gather(master: OptionList, xs: seq<Option>) returns (list: OptionList)
    requires master.Valid() && master.master == null
    modifies master, set i | 0 <= i < |xs| :: xs[i]
    ensures fresh(list) && list.Valid() && list.master == master && master.Valid()
    ensures list.items == Extend([], xs)
    ensures master.items == Extend(old(master.items), xs)
  {
    list := new OptionList(master);
    for i := 0 to |xs|
      invariant fresh(list) && list.Valid() && list.master == master
      invariant list.items == Extend([], xs[..i])
      invariant master.items == Extend(old(master.items), xs[..i])
    {
      assert xs[..i + 1] == xs[..i] + [xs[i]];
      ExtendSnoc([], xs[..i], xs[i]);
      ExtendMember([], xs[..i], xs[i]);
      ExtendSnoc(old(master.items), xs[..i], xs[i]);
      ExtendMember(old(master.items), xs[..i], xs[i]);
      list.Append(AnOption(xs[i]));
    }
    assert xs[..|xs|] == xs;
  }
}
