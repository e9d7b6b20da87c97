/**
 * The static table of Mexican states (name and region tag; the coordinates are
 * not part of this model) and the sidebar's region filter of app.py.
 */
module Regions {
  import opened Wrappers

  /** The region tags of the table. */
  datatype Region = Norte | Centro | Sur

  /** One row of `estados_mexico`. */
  datatype State = State(name: string, region: Region)

  /** `estados_mexico`, in its own order, written as four blocks of eight rows. */
  const States: seq<State> := StatesA + StatesB + StatesC + StatesD

  const StatesA: seq<State> := [
    State("Aguascalientes", Centro),
    State("Baja California", Norte),
    State("Baja California Sur", Norte),
    State("Campeche", Sur),
    State("Chiapas", Sur),
    State("Chihuahua", Norte),
    State("Ciudad de México", Centro),
    State("Coahuila", Norte)
  ]

  const StatesB: seq<State> := [
    State("Colima", Centro),
    State("Durango", Norte),
    State("Estado de México", Centro),
    State("Guanajuato", Centro),
    State("Guerrero", Sur),
    State("Hidalgo", Centro),
    State("Jalisco", Centro),
    State("Michoacán", Centro)
  ]

  const StatesC: seq<State> := [
    State("Morelos", Centro),
    State("Nayarit", Centro),
    State("Nuevo León", Norte),
    State("Oaxaca", Sur),
    State("Puebla", Centro),
    State("Querétaro", Centro),
    State("Quintana Roo", Sur),
    State("San Luis Potosí", Centro)
  ]

  const StatesD: seq<State> := [
    State("Sinaloa", Norte),
    State("Sonora", Norte),
    State("Tabasco", Sur),
    State("Tamaulipas", Norte),
    State("Tlaxcala", Centro),
    State("Veracruz", Sur),
    State("Yucatán", Sur),
    State("Zacatecas", Centro)
  ]

  /** The sidebar option naming a region, if the option is one. */
  function RegionOption(selectedRegion: string): (r: Option<Region>)
  {
    if selectedRegion == "Norte" then Some(Norte)
    else if selectedRegion == "Centro" then Some(Centro)
    else if selectedRegion == "Sur" then Some(Sur)
    else None
  }

  /** The list comprehension that keeps the states tagged `region`, in table order. */
  function InRegion(states: seq<State>, region: Region): (kept: seq<State>)
    ensures |kept| <= |states|
    ensures forall i :: 0 <= i < |kept| ==> kept[i].region == region
  {
    if states == [] then []
    else (if states[0].region == region then [states[0]] else []) + InRegion(states[1..], region)
  }

  /** A state is kept exactly when it is in the table and carries the tag. */
  lemma {:induction false} InRegionMembership(states: seq<State>, region: Region, x: State)
    ensures x in InRegion(states, region) <==> x in states && x.region == region
  {
    if states != [] {
      InRegionMembership(states[1..], region, x);
      assert states == [states[0]] + states[1..];
    }
  }

  /** Filtering distributes over concatenation, so the kept states stay in table order. */
  lemma {:induction false} InRegionAppend(a: seq<State>, b: seq<State>, region: Region)
    ensures InRegion(a + b, region) == InRegion(a, region) + InRegion(b, region)
  {
    if a != [] {
      var head := if a[0].region == region then [a[0]] else [];
      assert (a + b)[0] == a[0] && (a + b)[1..] == a[1..] + b;
      assert InRegion(a + b, region) == head + InRegion(a[1..] + b, region);
      InRegionAppend(a[1..], b, region);
      assert InRegion(a, region) == head + InRegion(a[1..], region);
    } else {
      assert a + b == b;
    }
  }

  /** The three regions split any table: each state lands in exactly one of them. */
  lemma {:induction false} RegionsPartition(states: seq<State>)
    ensures |InRegion(states, Norte)| + |InRegion(states, Centro)| + |InRegion(states, Sur)| == |states|
    ensures multiset(InRegion(states, Norte)) + multiset(InRegion(states, Centro)) + multiset(InRegion(states, Sur))
            == multiset(states)
  {
    if states != [] {
      RegionsPartition(states[1..]);
      assert states == [states[0]] + states[1..];
    }
  }

  /**
   * The sidebar selection: "Norte", "Centro" or "Sur" keeps the states of that
   * region; any other choice ("Todos los estados") keeps the whole table.
   */
  function SelectStates(states: seq<State>, selectedRegion: string): (r: seq<State>)
    ensures RegionOption(selectedRegion).Some? ==> r == InRegion(states, RegionOption(selectedRegion).value)
    ensures RegionOption(selectedRegion).None? ==> r == states
  {
    if selectedRegion == "Norte" then InRegion(states, Norte)
    else if selectedRegion == "Centro" then InRegion(states, Centro)
    else if selectedRegion == "Sur" then InRegion(states, Sur)
    else states
  }

  /** Whatever the selection, only states of the table are shown, and a region choice shows only that region. */
  lemma SelectStatesIsSubset(states: seq<State>, selectedRegion: string, x: State)
    requires x in SelectStates(states, selectedRegion)
    ensures x in states
    ensures RegionOption(selectedRegion).Some? ==> x.region == RegionOption(selectedRegion).value
  {
    if RegionOption(selectedRegion).Some? {
      InRegionMembership(states, RegionOption(selectedRegion).value, x);
    }
  }

  lemma RegionCountsA()
    ensures |InRegion(StatesA, Norte)| == 4 && |InRegion(StatesA, Centro)| == 2 && |InRegion(StatesA, Sur)| == 2
  {
  }

  lemma RegionCountsB()
    ensures |InRegion(StatesB, Norte)| == 1 && |InRegion(StatesB, Centro)| == 6 && |InRegion(StatesB, Sur)| == 1
  {
  }

  lemma RegionCountsC()
    ensures |InRegion(StatesC, Norte)| == 1 && |InRegion(StatesC, Centro)| == 5 && |InRegion(StatesC, Sur)| == 2
  {
  }

  lemma RegionCountsD()
    ensures |InRegion(StatesD, Norte)| == 3 && |InRegion(StatesD, Centro)| == 2 && |InRegion(StatesD, Sur)| == 3
  {
  }

  lemma InRegionOfTable(region: Region)
    ensures InRegion(States, region) ==
      InRegion(StatesA, region) + InRegion(StatesB, region) + InRegion(StatesC, region) + InRegion(StatesD, region)
  {
    InRegionAppend(StatesA, StatesB, region);
    InRegionAppend(StatesA + StatesB, StatesC, region);
    InRegionAppend(StatesA + StatesB + StatesC, StatesD, region);
  }

  /** The 32 states split into 9 northern, 15 central and 8 southern ones. */
  lemma TableRegions()
    ensures |States| == 32
    ensures |SelectStates(States, "Norte")| == 9
    ensures |SelectStates(States, "Centro")| == 15
    ensures |SelectStates(States, "Sur")| == 8
    ensures SelectStates(States, "Todos los estados") == States
  {
    RegionCountsA();
    RegionCountsB();
    RegionCountsC();
    RegionCountsD();
    InRegionOfTable(Norte);
    InRegionOfTable(Centro);
    InRegionOfTable(Sur);
  }
}
