/**
 * The overdue-notification tracker of `NotificacionService`: a list of
 * tracked overdue tasks and an "unseen" flag, filled by two scans of the task
 * list that differ in what they add, escalate and count.
 */
module Notificacion {
  import opened Wrappers
  import opened Tareas

  /** Overdue: not exactly "Completada", with a due date on or before `hoy`. */
  predicate Vencida(t: Tarea, hoy: Dia)
  {
    t.estado != Some(COMPLETADA) && t.fechaFin.Some? && t.fechaFin.value <= hoy
  }

  /** Raising a task to "Alta" priority. */
  function Escalar(t: Tarea): (r: Tarea)
  {
    SetPrioridadTarea(t, Some(ALTA))
  }

  /** Some entry of `lista` carries the identifier `id`. */
  predicate TieneId(lista: seq<Tarea>, id: Option<int>)
  {
    exists k :: 0 <= k < |lista| && lista[k].id == id
  }

  /** Every task has an identifier: it came from the store. */
  predicate ConIds(lista: seq<Tarea>)
  {
    forall k :: 0 <= k < |lista| ==> lista[k].id.Some?
  }

  /** No two entries share an identifier. */
  predicate IdsDistintos(lista: seq<Tarea>)
  {
    forall j, k :: 0 <= j < k < |lista| ==> lista[j].id != lista[k].id
  }

  /** What the tracked list keeps between calls. */
  predicate Registro(lista: seq<Tarea>)
  {
    ConIds(lista) && IdsDistintos(lista)
  }

  /**
   * `contieneTarea`: a linear search of the list for the identifier. The
   * source dereferences every entry's identifier, so entries must have one.
   */
  method ContieneTarea(lista: seq<Tarea>, id: Option<int>) returns (b: bool)
    requires ConIds(lista)
    ensures b <==> TieneId(lista, id)
    ensures b ==> id.Some?
  {
    var k := 0;
    while k < |lista|
      invariant 0 <= k <= |lista|
      invariant forall j :: 0 <= j < k ==> lista[j].id != id
    {
      if lista[k].id == id {
        return true;
      }
      k := k + 1;
    }
    return false;
  }

  /** The state one scan leaves: tracked list, task list, and the scan's counter. */
  datatype Escaneo = Escaneo(pendientes: seq<Tarea>, tareas: seq<Tarea>, contador: nat)

  /**
   * The scheduled scan over `xs`, task by task, starting from the tracked
   * list `pendientes`: an overdue task whose identifier is not yet tracked
   * is escalated to "Alta", appended and counted.
   */
  function EscaneoProgramado(pendientes: seq<Tarea>, xs: seq<Tarea>, hoy: Dia): (e: Escaneo)
    ensures |e.tareas| == |xs|
  {
    if xs == [] then Escaneo(pendientes, [], 0)
    else
      var e := EscaneoProgramado(pendientes, xs[..|xs| - 1], hoy);
      var t := xs[|xs| - 1];
      if Vencida(t, hoy) && !TieneId(e.pendientes, t.id) then
        Escaneo(e.pendientes + [Escalar(t)], e.tareas + [Escalar(t)], e.contador + 1)
      else
        Escaneo(e.pendientes, e.tareas + [t], e.contador)
  }

  /**
   * The manual scan: an overdue task not yet at "Alta" is escalated and
   * counted, and appended only if its identifier is not yet tracked.
   */
  function EscaneoManual(pendientes: seq<Tarea>, xs: seq<Tarea>, hoy: Dia): (e: Escaneo)
    ensures |e.tareas| == |xs|
  {
    if xs == [] then Escaneo(pendientes, [], 0)
    else
      var e := EscaneoManual(pendientes, xs[..|xs| - 1], hoy);
      var t := xs[|xs| - 1];
      if Vencida(t, hoy) && t.prioridad != Some(ALTA) then
        var nuevos := if TieneId(e.pendientes, t.id) then e.pendientes else e.pendientes + [Escalar(t)];
        Escaneo(nuevos, e.tareas + [Escalar(t)], e.contador + 1)
      else
        Escaneo(e.pendientes, e.tareas + [t], e.contador)
  }

  /** The overdue tasks of `xs` whose priority is not "Alta". */
  function VencidasNoAlta(xs: seq<Tarea>, hoy: Dia): (n: nat)
  {
    if xs == [] then 0
    else
      var t := xs[|xs| - 1];
      VencidasNoAlta(xs[..|xs| - 1], hoy) + (if Vencida(t, hoy) && t.prioridad != Some(ALTA) then 1 else 0)
  }

  /**
   * `removeIf` on the identifier: the list without the entries carrying `id`.
   */
  function SinId(lista: seq<Tarea>, id: Option<int>): (r: seq<Tarea>)
    ensures |r| <= |lista|
    ensures forall k :: 0 <= k < |r| ==> r[k].id != id
    ensures forall t :: t in r <==> t in lista && t.id != id
  {
    if lista == [] then []
    else if lista[0].id == id then SinId(lista[1..], id)
    else [lista[0]] + SinId(lista[1..], id)
  }

  // Lemmas about the scheduled scan.

  /** An entry the scheduled scan may append: an overdue task of `xs` that was not tracked, raised to "Alta". */
  predicate AgregableProgramado(l: seq<Tarea>, xs: seq<Tarea>, t: Tarea, hoy: Dia)
  {
    Vencida(t, hoy) && t.prioridad == Some(ALTA) && !TieneId(l, t.id)
      && exists j :: 0 <= j < |xs| && t == Escalar(xs[j])
  }

  /**
   * The scheduled scan only appends: the old entries stay in place, the count
   * is the number of entries appended, and each appended entry is an overdue
   * task, raised to "Alta", whose identifier was not tracked before.
   */
  lemma {:induction false} ProgramadoAgrega(l: seq<Tarea>, xs: seq<Tarea>, hoy: Dia)
    ensures var e := EscaneoProgramado(l, xs, hoy);
      && |l| <= |e.pendientes| && e.pendientes[..|l|] == l
      && e.contador == |e.pendientes| - |l|
      && forall k :: |l| <= k < |e.pendientes| ==> AgregableProgramado(l, xs, e.pendientes[k], hoy)
  {
    if xs != [] {
      var n := |xs| - 1;
      var xs' := xs[..n];
      var e' := EscaneoProgramado(l, xs', hoy);
      var t := xs[n];
      ProgramadoAgrega(l, xs', hoy);
      forall k | |l| <= k < |e'.pendientes|
        ensures AgregableProgramado(l, xs, e'.pendientes[k], hoy)
      {
        var j :| 0 <= j < |xs'| && e'.pendientes[k] == Escalar(xs'[j]);
        assert xs[j] == xs'[j];
      }
      if Vencida(t, hoy) && !TieneId(e'.pendientes, t.id) {
        var p := e'.pendientes + [Escalar(t)];
        assert p[..|l|] == e'.pendientes[..|l|];
        assert p[|p| - 1] == Escalar(t);
      }
    }
  }

  /** Starting from a list with no repeated identifier, the scheduled scan adds none. */
  lemma {:induction false} ProgramadoRegistro(l: seq<Tarea>, xs: seq<Tarea>, hoy: Dia)
    requires Registro(l) && ConIds(xs)
    ensures Registro(EscaneoProgramado(l, xs, hoy).pendientes)
  {
    if xs != [] {
      var n := |xs| - 1;
      var e' := EscaneoProgramado(l, xs[..n], hoy);
      var t := xs[n];
      ProgramadoRegistro(l, xs[..n], hoy);
      if Vencida(t, hoy) && !TieneId(e'.pendientes, t.id) {
        var p := e'.pendientes + [Escalar(t)];
        forall j, k | 0 <= j < k < |p|
          ensures p[j].id != p[k].id
        {
          if k == |p| - 1 {
            assert p[j] == e'.pendientes[j];
          }
        }
      }
    }
  }

  /** After the scheduled scan every overdue task of `xs` is tracked. */
  lemma {:induction false} ProgramadoCubre(l: seq<Tarea>, xs: seq<Tarea>, hoy: Dia)
    ensures forall i :: 0 <= i < |xs| && Vencida(xs[i], hoy) ==> TieneId(EscaneoProgramado(l, xs, hoy).pendientes, xs[i].id)
  {
    if xs != [] {
      var n := |xs| - 1;
      var e' := EscaneoProgramado(l, xs[..n], hoy);
      var e := EscaneoProgramado(l, xs, hoy);
      ProgramadoCubre(l, xs[..n], hoy);
      forall i | 0 <= i < |xs| && Vencida(xs[i], hoy)
        ensures TieneId(e.pendientes, xs[i].id)
      {
        if i < n {
          assert xs[..n][i] == xs[i];
          var k :| 0 <= k < |e'.pendientes| && e'.pendientes[k].id == xs[i].id;
          assert e.pendientes[k] == e'.pendientes[k];
        } else if !TieneId(e'.pendientes, xs[i].id) {
          assert e.pendientes[|e.pendientes| - 1] == Escalar(xs[i]);
        } else {
          var k :| 0 <= k < |e'.pendientes| && e'.pendientes[k].id == xs[i].id;
          assert e.pendientes[k] == e'.pendientes[k];
        }
      }
    }
  }

  /**
   * The scheduled scan changes at most the priority of a task, and only of an
   * overdue one, which it raises to "Alta"; any other task, a completed one
   * included, is left as it was.
   */
  lemma {:induction false} ProgramadoTareas(l: seq<Tarea>, xs: seq<Tarea>, hoy: Dia)
    ensures var e := EscaneoProgramado(l, xs, hoy);
      forall i :: 0 <= i < |xs| ==>
        && (e.tareas[i] == xs[i] || (Vencida(xs[i], hoy) && e.tareas[i] == Escalar(xs[i])))
        && (!Vencida(xs[i], hoy) ==> e.tareas[i] == xs[i])
  {
    if xs != [] {
      var n := |xs| - 1;
      ProgramadoTareas(l, xs[..n], hoy);
      var e' := EscaneoProgramado(l, xs[..n], hoy);
      var e := EscaneoProgramado(l, xs, hoy);
      forall i | 0 <= i < n
        ensures e.tareas[i] == e'.tareas[i] && xs[i] == xs[..n][i]
      {
      }
    }
  }

  /**
   * With the distinct identifiers the store guarantees, the scheduled scan
   * raises to "Alta" (and so saves) every overdue task that was not tracked.
   */
  lemma {:induction false} ProgramadoEscala(l: seq<Tarea>, xs: seq<Tarea>, hoy: Dia)
    requires IdsDistintos(xs)
    ensures forall i :: 0 <= i < |xs| && Vencida(xs[i], hoy) && !TieneId(l, xs[i].id) ==>
      EscaneoProgramado(l, xs, hoy).tareas[i] == Escalar(xs[i])
  {
    if xs != [] {
      var n := |xs| - 1;
      var xs' := xs[..n];
      var e' := EscaneoProgramado(l, xs', hoy);
      var e := EscaneoProgramado(l, xs, hoy);
      ProgramadoEscala(l, xs', hoy);
      ProgramadoAgrega(l, xs', hoy);
      forall i | 0 <= i < |xs| && Vencida(xs[i], hoy) && !TieneId(l, xs[i].id)
        ensures e.tareas[i] == Escalar(xs[i])
      {
        if i < n {
          assert xs'[i] == xs[i];
          assert e.tareas[i] == e'.tareas[i];
        } else {
          forall k | 0 <= k < |e'.pendientes|
            ensures e'.pendientes[k].id != xs[n].id
          {
            if k < |l| {
              assert e'.pendientes[k] == l[k];
            } else {
              assert AgregableProgramado(l, xs', e'.pendientes[k], hoy);
              var j :| 0 <= j < |xs'| && e'.pendientes[k] == Escalar(xs'[j]);
              assert xs'[j] == xs[j];
            }
          }
        }
      }
    }
  }

  /** The scheduled scan leaves alone every task whose identifier was already tracked, overdue or not. */
  lemma {:induction false} ProgramadoSeguidaIntacta(l: seq<Tarea>, xs: seq<Tarea>, hoy: Dia)
    ensures forall i :: 0 <= i < |xs| && TieneId(l, xs[i].id) ==> EscaneoProgramado(l, xs, hoy).tareas[i] == xs[i]
  {
    if xs != [] {
      var n := |xs| - 1;
      var e' := EscaneoProgramado(l, xs[..n], hoy);
      var e := EscaneoProgramado(l, xs, hoy);
      ProgramadoSeguidaIntacta(l, xs[..n], hoy);
      ProgramadoAgrega(l, xs[..n], hoy);
      forall i | 0 <= i < |xs| && TieneId(l, xs[i].id)
        ensures e.tareas[i] == xs[i]
      {
        if i < n {
          assert xs[..n][i] == xs[i];
          assert e.tareas[i] == e'.tareas[i];
        } else {
          var k :| 0 <= k < |l| && l[k].id == xs[i].id;
          assert e'.pendientes[k] == l[k];
        }
      }
    }
  }

  /**
   * With the distinct identifiers the store guarantees, the scheduled scan's
   * effect on each task exactly: raised to "Alta" iff it is overdue and its
   * identifier was not tracked, otherwise unchanged.
   */
  lemma ProgramadoTareasExacto(l: seq<Tarea>, xs: seq<Tarea>, hoy: Dia)
    requires IdsDistintos(xs)
    ensures var e := EscaneoProgramado(l, xs, hoy);
      forall i :: 0 <= i < |xs| ==>
        e.tareas[i] == if Vencida(xs[i], hoy) && !TieneId(l, xs[i].id) then Escalar(xs[i]) else xs[i]
  {
    ProgramadoTareas(l, xs, hoy);
    ProgramadoEscala(l, xs, hoy);
    ProgramadoSeguidaIntacta(l, xs, hoy);
  }

  /** A scan over tasks whose overdue ones are all tracked already changes nothing and counts nothing. */
  lemma {:induction false} ProgramadoSinNovedades(l: seq<Tarea>, xs: seq<Tarea>, hoy: Dia)
    requires forall i :: 0 <= i < |xs| && Vencida(xs[i], hoy) ==> TieneId(l, xs[i].id)
    ensures EscaneoProgramado(l, xs, hoy) == Escaneo(l, xs, 0)
  {
    if xs != [] {
      var n := |xs| - 1;
      ProgramadoSinNovedades(l, xs[..n], hoy);
      assert xs[..n] + [xs[n]] == xs;
    }
  }

  /**
   * Membership is idempotent: running the scheduled scan again over the
   * tasks it left, with the same `today`, appends nothing, counts nothing
   * (so it cannot raise the flag) and changes no task.
   */
  lemma ProgramadoIdempotente(l: seq<Tarea>, xs: seq<Tarea>, hoy: Dia)
    ensures var e := EscaneoProgramado(l, xs, hoy);
      EscaneoProgramado(e.pendientes, e.tareas, hoy) == Escaneo(e.pendientes, e.tareas, 0)
  {
    var e := EscaneoProgramado(l, xs, hoy);
    ProgramadoTareas(l, xs, hoy);
    ProgramadoCubre(l, xs, hoy);
    forall i | 0 <= i < |e.tareas| && Vencida(e.tareas[i], hoy)
      ensures TieneId(e.pendientes, e.tareas[i].id)
    {
      assert Vencida(xs[i], hoy);
    }
    ProgramadoSinNovedades(e.pendientes, e.tareas, hoy);
  }

  // Lemmas about the manual scan.

  /** An entry the manual scan may append: an overdue task of `xs` that was below "Alta" and not tracked, raised to "Alta". */
  predicate AgregableManual(l: seq<Tarea>, xs: seq<Tarea>, t: Tarea, hoy: Dia)
  {
    Vencida(t, hoy) && t.prioridad == Some(ALTA) && !TieneId(l, t.id)
      && exists j :: 0 <= j < |xs| && xs[j].prioridad != Some(ALTA) && t == Escalar(xs[j])
  }

  /**
   * The manual scan only appends, appends no more entries than it counts,
   * and each appended entry is an overdue task of `xs` that was below "Alta",
   * now raised to it, whose identifier was not tracked before.
   */
  lemma {:induction false} ManualAgrega(l: seq<Tarea>, xs: seq<Tarea>, hoy: Dia)
    ensures var e := EscaneoManual(l, xs, hoy);
      && |l| <= |e.pendientes| && e.pendientes[..|l|] == l
      && |e.pendientes| - |l| <= e.contador
      && forall k :: |l| <= k < |e.pendientes| ==> AgregableManual(l, xs, e.pendientes[k], hoy)
  {
    if xs != [] {
      var n := |xs| - 1;
      var xs' := xs[..n];
      var e' := EscaneoManual(l, xs', hoy);
      var t := xs[n];
      ManualAgrega(l, xs', hoy);
      forall k | |l| <= k < |e'.pendientes|
        ensures AgregableManual(l, xs, e'.pendientes[k], hoy)
      {
        var j :| 0 <= j < |xs'| && xs'[j].prioridad != Some(ALTA) && e'.pendientes[k] == Escalar(xs'[j]);
        assert xs[j] == xs'[j];
      }
      if Vencida(t, hoy) && t.prioridad != Some(ALTA) && !TieneId(e'.pendientes, t.id) {
        var p := e'.pendientes + [Escalar(t)];
        assert p[..|l|] == e'.pendientes[..|l|];
        assert p[|p| - 1] == Escalar(t);
      }
    }
  }

  /** After the manual scan every overdue task that was below "Alta" is tracked. */
  lemma {:induction false} ManualCubre(l: seq<Tarea>, xs: seq<Tarea>, hoy: Dia)
    ensures forall i :: 0 <= i < |xs| && Vencida(xs[i], hoy) && xs[i].prioridad != Some(ALTA) ==>
      TieneId(EscaneoManual(l, xs, hoy).pendientes, xs[i].id)
  {
    if xs != [] {
      var n := |xs| - 1;
      var e' := EscaneoManual(l, xs[..n], hoy);
      var e := EscaneoManual(l, xs, hoy);
      ManualCubre(l, xs[..n], hoy);
      forall i | 0 <= i < |xs| && Vencida(xs[i], hoy) && xs[i].prioridad != Some(ALTA)
        ensures TieneId(e.pendientes, xs[i].id)
      {
        if i < n {
          assert xs[..n][i] == xs[i];
          var k :| 0 <= k < |e'.pendientes| && e'.pendientes[k].id == xs[i].id;
          assert e.pendientes[k] == e'.pendientes[k];
        } else if !TieneId(e'.pendientes, xs[i].id) {
          assert e.pendientes[|e.pendientes| - 1] == Escalar(xs[i]);
        } else {
          var k :| 0 <= k < |e'.pendientes| && e'.pendientes[k].id == xs[i].id;
          assert e.pendientes[k] == e'.pendientes[k];
        }
      }
    }
  }

  /** Starting from a list with no repeated identifier, the manual scan adds none. */
  lemma {:induction false} ManualRegistro(l: seq<Tarea>, xs: seq<Tarea>, hoy: Dia)
    requires Registro(l) && ConIds(xs)
    ensures Registro(EscaneoManual(l, xs, hoy).pendientes)
  {
    if xs != [] {
      var n := |xs| - 1;
      var e' := EscaneoManual(l, xs[..n], hoy);
      var t := xs[n];
      ManualRegistro(l, xs[..n], hoy);
      if Vencida(t, hoy) && t.prioridad != Some(ALTA) && !TieneId(e'.pendientes, t.id) {
        var p := e'.pendientes + [Escalar(t)];
        forall j, k | 0 <= j < k < |p|
          ensures p[j].id != p[k].id
        {
          if k == |p| - 1 {
            assert p[j] == e'.pendientes[j];
          }
        }
      }
    }
  }

  /**
   * The manual scan raises to "Alta" exactly the overdue tasks below it and
   * leaves every other task, completed ones included, as it was.
   */
  lemma {:induction false} ManualTareas(l: seq<Tarea>, xs: seq<Tarea>, hoy: Dia)
    ensures var e := EscaneoManual(l, xs, hoy);
      forall i :: 0 <= i < |xs| ==>
        e.tareas[i] == if Vencida(xs[i], hoy) && xs[i].prioridad != Some(ALTA) then Escalar(xs[i]) else xs[i]
  {
    if xs != [] {
      var n := |xs| - 1;
      ManualTareas(l, xs[..n], hoy);
      var e' := EscaneoManual(l, xs[..n], hoy);
      var e := EscaneoManual(l, xs, hoy);
      forall i | 0 <= i < n
        ensures e.tareas[i] == e'.tareas[i] && xs[i] == xs[..n][i]
      {
      }
    }
  }

  /**
   * The manual scan's result is the number of overdue tasks that were below
   * "Alta", which is also the number of tasks whose priority it changed.
   */
  lemma {:induction false} ManualCuenta(l: seq<Tarea>, xs: seq<Tarea>, hoy: Dia)
    ensures var e := EscaneoManual(l, xs, hoy);
      e.contador == VencidasNoAlta(xs, hoy) && e.contador == DiferenciasPrioridad(xs, e.tareas)
  {
    if xs != [] {
      var n := |xs| - 1;
      ManualCuenta(l, xs[..n], hoy);
      var e := EscaneoManual(l, xs, hoy);
      var e' := EscaneoManual(l, xs[..n], hoy);
      assert e.tareas[..n] == e'.tareas;
    }
  }

  /**
   * After a manual scan no overdue task is below "Alta", so running it again
   * changes no task, appends nothing and counts nothing.
   */
  lemma ManualIdempotente(l: seq<Tarea>, xs: seq<Tarea>, hoy: Dia)
    ensures var e := EscaneoManual(l, xs, hoy);
      EscaneoManual(e.pendientes, e.tareas, hoy) == Escaneo(e.pendientes, e.tareas, 0)
  {
    var e := EscaneoManual(l, xs, hoy);
    ManualTareas(l, xs, hoy);
    ManualSinNovedades(e.pendientes, e.tareas, hoy);
  }

  /** A manual scan over tasks with no overdue one below "Alta" changes nothing and counts nothing. */
  lemma {:induction false} ManualSinNovedades(l: seq<Tarea>, xs: seq<Tarea>, hoy: Dia)
    requires forall i :: 0 <= i < |xs| && Vencida(xs[i], hoy) ==> xs[i].prioridad == Some(ALTA)
    ensures EscaneoManual(l, xs, hoy) == Escaneo(l, xs, 0)
  {
    if xs != [] {
      var n := |xs| - 1;
      ManualSinNovedades(l, xs[..n], hoy);
      assert xs[..n] + [xs[n]] == xs;
    }
  }

  // Lemmas about removal by identifier.

  /** Removal keeps the order: it distributes over concatenation. */
  lemma {:induction false} SinIdConcatena(a: seq<Tarea>, b: seq<Tarea>, id: Option<int>)
    ensures SinId(a + b, id) == SinId(a, id) + SinId(b, id)
  {
    if a == [] {
      assert a + b == b;
    } else {
      var c := a + b;
      assert c[0] == a[0];
      assert c[1..] == a[1..] + b;
      SinIdConcatena(a[1..], b, id);
      if a[0].id == id {
        calc {
          SinId(c, id);
          SinId(a[1..] + b, id);
          SinId(a[1..], id) + SinId(b, id);
        }
      } else {
        calc {
          SinId(c, id);
          [a[0]] + SinId(a[1..] + b, id);
          [a[0]] + (SinId(a[1..], id) + SinId(b, id));
          ([a[0]] + SinId(a[1..], id)) + SinId(b, id);
        }
      }
    }
  }

  /** Removing an identifier nobody carries leaves the list as it was. */
  lemma {:induction false} SinIdAusente(lista: seq<Tarea>, id: Option<int>)
    requires !TieneId(lista, id)
    ensures SinId(lista, id) == lista
  {
    if lista != [] {
      SinIdAusente(lista[1..], id);
      assert lista == [lista[0]] + lista[1..];
    }
  }

  /** Removal keeps a list free of repeated identifiers. */
  lemma {:induction false} SinIdRegistro(lista: seq<Tarea>, id: Option<int>)
    requires Registro(lista)
    ensures Registro(SinId(lista, id))
  {
    if lista != [] {
      var resto := lista[1..];
      SinIdRegistro(resto, id);
      var r := SinId(resto, id);
      if lista[0].id != id {
        forall k | 0 <= k < |r|
          ensures r[k].id != lista[0].id
        {
          assert r[k] in resto;
        }
      }
    }
  }

  /**
   * The tracker object: the tracked overdue tasks, in the order they were
   * appended, and the "unseen notifications" flag.
   */
  class NotificacionService {
    var tareasVencidasSinNotificar: seq<Tarea>
    var hayNotificacionesNuevas: bool

    /** Every tracked entry has an identifier, and no identifier is tracked twice. */
    ghost predicate Valid()
      reads this
    {
      Registro(tareasVencidasSinNotificar)
    }

    constructor ()
      ensures Valid()
      ensures tareasVencidasSinNotificar == [] && !hayNotificacionesNuevas
    {
      tareasVencidasSinNotificar := [];
      hayNotificacionesNuevas := false;
    }

    /**
     * `verificarTareasVencidas`, the scheduled scan. Escalated tasks are
     * written back into `tareas`, which stands for saving them to the store.
     */
    method VerificarTareasVencidas(tareas: array<Tarea>, hoy: Dia)
      requires Valid() && ConIds(tareas[..])
      modifies this, tareas
      ensures Valid()
      ensures var e := EscaneoProgramado(old(tareasVencidasSinNotificar), old(tareas[..]), hoy);
        && tareasVencidasSinNotificar == e.pendientes
        && tareas[..] == e.tareas
        && hayNotificacionesNuevas == (old(hayNotificacionesNuevas) || e.contador > 0)
    {
      ghost var inicial := tareas[..];
      ghost var lista := tareasVencidasSinNotificar;
      var nuevasVencidas := 0;
      for i := 0 to tareas.Length
        invariant forall k :: i <= k < tareas.Length ==> tareas[k] == inicial[k]
        invariant ConIds(tareasVencidasSinNotificar)
        invariant hayNotificacionesNuevas == old(hayNotificacionesNuevas)
        invariant var e := EscaneoProgramado(lista, inicial[..i], hoy);
          && tareasVencidasSinNotificar == e.pendientes
          && tareas[..i] == e.tareas
          && nuevasVencidas == e.contador
      {
        assert inicial[..i + 1][..i] == inicial[..i];
        var tarea := tareas[i];
        if tarea.estado != Some(COMPLETADA) {
          var fechaFin := tarea.fechaFin;
          if fechaFin.Some? {
            if fechaFin.value <= hoy {
              var contiene := ContieneTarea(tareasVencidasSinNotificar, tarea.id);
              if !contiene {
                if tarea.prioridad != Some(ALTA) {
                  tarea := SetPrioridadTarea(tarea, Some(ALTA));
                  tareas[i] := tarea;
                }
                tareasVencidasSinNotificar := tareasVencidasSinNotificar + [tarea];
                nuevasVencidas := nuevasVencidas + 1;
              }
            }
          }
        }
        assert tareas[..i + 1] == tareas[..i] + [tareas[i]];
      }
      assert inicial[..tareas.Length] == inicial;
      assert tareas[..tareas.Length] == tareas[..];
      if nuevasVencidas > 0 {
        hayNotificacionesNuevas := true;
      }
      ProgramadoRegistro(lista, inicial, hoy);
    }

    /**
     * `verificarTareasVencidasManual`, the manual scan; returns how many
     * overdue tasks it raised to "Alta".
     */
    method VerificarTareasVencidasManual(tareas: array<Tarea>, hoy: Dia) returns (tareasActualizadas: nat)
      requires Valid() && ConIds(tareas[..])
      modifies this, tareas
      ensures Valid()
      ensures var e := EscaneoManual(old(tareasVencidasSinNotificar), old(tareas[..]), hoy);
        && tareasVencidasSinNotificar == e.pendientes
        && tareas[..] == e.tareas
        && tareasActualizadas == e.contador
        && hayNotificacionesNuevas == (old(hayNotificacionesNuevas) || e.contador > 0)
    {
      ghost var inicial := tareas[..];
      ghost var lista := tareasVencidasSinNotificar;
      tareasActualizadas := 0;
      for i := 0 to tareas.Length
        invariant forall k :: i <= k < tareas.Length ==> tareas[k] == inicial[k]
        invariant ConIds(tareasVencidasSinNotificar)
        invariant hayNotificacionesNuevas == old(hayNotificacionesNuevas)
        invariant var e := EscaneoManual(lista, inicial[..i], hoy);
          && tareasVencidasSinNotificar == e.pendientes
          && tareas[..i] == e.tareas
          && tareasActualizadas == e.contador
      {
        assert inicial[..i + 1][..i] == inicial[..i];
        var tarea := tareas[i];
        if tarea.estado != Some(COMPLETADA) {
          var fechaFin := tarea.fechaFin;
          if fechaFin.Some? {
            if fechaFin.value <= hoy {
              if tarea.prioridad != Some(ALTA) {
                tarea := SetPrioridadTarea(tarea, Some(ALTA));
                tareas[i] := tarea;
                tareasActualizadas := tareasActualizadas + 1;
                var contiene := ContieneTarea(tareasVencidasSinNotificar, tarea.id);
                if !contiene {
                  tareasVencidasSinNotificar := tareasVencidasSinNotificar + [tarea];
                }
              }
            }
          }
        }
        assert tareas[..i + 1] == tareas[..i] + [tareas[i]];
      }
      assert inicial[..tareas.Length] == inicial;
      assert tareas[..tareas.Length] == tareas[..];
      if tareasActualizadas > 0 {
        hayNotificacionesNuevas := true;
      }
      ManualRegistro(lista, inicial, hoy);
    }

    /** `getTareasVencidasSinNotificar`: a copy of the tracked list. */
    method GetTareasVencidasSinNotificar() returns (copia: seq<Tarea>)
      ensures copia == tareasVencidasSinNotificar
    {
      copia := tareasVencidasSinNotificar;
    }

    /** `marcarNotificacionesComoVistas`: clears the flag, keeps the list. */
    method MarcarNotificacionesComoVistas()
      requires Valid()
      modifies this`hayNotificacionesNuevas
      ensures Valid()
      ensures !hayNotificacionesNuevas
      ensures tareasVencidasSinNotificar == old(tareasVencidasSinNotificar)
    {
      hayNotificacionesNuevas := false;
    }

    /** `eliminarNotificacion`: drops every tracked entry with the identifier; the flag is untouched. */
    method EliminarNotificacion(idTarea: Option<int>)
      requires Valid()
      modifies this`tareasVencidasSinNotificar
      ensures Valid()
      ensures tareasVencidasSinNotificar == SinId(old(tareasVencidasSinNotificar), idTarea)
      ensures hayNotificacionesNuevas == old(hayNotificacionesNuevas)
    {
      SinIdRegistro(tareasVencidasSinNotificar, idTarea);
      tareasVencidasSinNotificar := SinId(tareasVencidasSinNotificar, idTarea);
    }

    /** `hayNotificacionesNuevas`: the flag. */
    method HayNotificacionesNuevas() returns (b: bool)
      ensures b == hayNotificacionesNuevas
    {
      b := hayNotificacionesNuevas;
    }

    /** `getNumeroNotificaciones`: the length of the tracked list. */
    method GetNumeroNotificaciones() returns (n: nat)
      ensures n == |tareasVencidasSinNotificar|
    {
      n := |tareasVencidasSinNotificar|;
    }
  }
}
