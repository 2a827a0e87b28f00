/**
 * The task record of the application (`Tarea`): eight nullable fields, a
 * getter per field and a setter per field. A Java `null` is `None`; a date is
 * the number of the calendar day it falls on in the system time zone.
 */
module Tareas {
  import opened Wrappers

  /** Whole days since a fixed epoch; the difference of two is a count of days. */
  type Dia = int

  /** The status and priority strings the services compare against. */
  const COMPLETADA: string := "Completada"
  const ALTA: string := "Alta"
  const MEDIA: string := "Media"
  const BAJA: string := "Baja"

  /** A task. The fields are its getters; `id` is assigned by the store. */
  datatype Tarea = Tarea(
    id: Option<int>,
    nombre: Option<string>,
    responsable: Option<string>,
    descripcion: Option<string>,
    fechaInicio: Option<Dia>,
    fechaFin: Option<Dia>,
    estado: Option<string>,
    prioridad: Option<string>)

  /** The no-argument constructor: every field null, so the task is not yet persisted. */
  function NuevaTarea(): (t: Tarea)
    ensures t.id.None?
    ensures t.nombre.None? && t.responsable.None? && t.descripcion.None?
    ensures t.fechaInicio.None? && t.fechaFin.None?
    ensures t.estado.None? && t.prioridad.None?
  {
    Tarea(None, None, None, None, None, None, None, None)
  }

  // Each setter stores its value (so the matching getter returns it) and,
  // as the second ensures says, putting the old value back gives the task
  // it started from: no other field moved.

  function SetIdTarea(t: Tarea, v: Option<int>): (r: Tarea)
    ensures r.id == v
    ensures r.(id := t.id) == t
  {
    t.(id := v)
  }

  function SetNombreTarea(t: Tarea, v: Option<string>): (r: Tarea)
    ensures r.nombre == v
    ensures r.(nombre := t.nombre) == t
  {
    t.(nombre := v)
  }

  function SetResponsableTarea(t: Tarea, v: Option<string>): (r: Tarea)
    ensures r.responsable == v
    ensures r.(responsable := t.responsable) == t
  {
    t.(responsable := v)
  }

  function SetDescripcionTarea(t: Tarea, v: Option<string>): (r: Tarea)
    ensures r.descripcion == v
    ensures r.(descripcion := t.descripcion) == t
  {
    t.(descripcion := v)
  }

  function SetFechaInicioTarea(t: Tarea, v: Option<Dia>): (r: Tarea)
    ensures r.fechaInicio == v
    ensures r.(fechaInicio := t.fechaInicio) == t
  {
    t.(fechaInicio := v)
  }

  function SetFechaFinTarea(t: Tarea, v: Option<Dia>): (r: Tarea)
    ensures r.fechaFin == v
    ensures r.(fechaFin := t.fechaFin) == t
  {
    t.(fechaFin := v)
  }

  function SetEstadoTarea(t: Tarea, v: Option<string>): (r: Tarea)
    ensures r.estado == v
    ensures r.(estado := t.estado) == t
  {
    t.(estado := v)
  }

  function SetPrioridadTarea(t: Tarea, v: Option<string>): (r: Tarea)
    ensures r.prioridad == v
    ensures r.(prioridad := t.prioridad) == t
  {
    t.(prioridad := v)
  }

  /** `b` is `a` with at most its priority changed. */
  predicate SoloCambiaPrioridad(a: Tarea, b: Tarea)
  {
    b.(prioridad := a.prioridad) == a
  }

  /**
   * The number of positions at which two equally long task lists disagree on
   * the priority: the tasks whose priority a batch update changed.
   */
  function DiferenciasPrioridad(antes: seq<Tarea>, despues: seq<Tarea>): (n: nat)
    requires |antes| == |despues|
  {
    if antes == [] then 0
    else
      var n := |antes| - 1;
      DiferenciasPrioridad(antes[..n], despues[..n])
        + (if antes[n].prioridad != despues[n].prioridad then 1 else 0)
  }

  lemma {:induction false} SinDiferencias(xs: seq<Tarea>)
    ensures DiferenciasPrioridad(xs, xs) == 0
  {
    if xs != [] {
      SinDiferencias(xs[..|xs| - 1]);
    }
  }

  /** Extending two lists by one position adds that position's disagreement. */
  lemma DiferenciasPaso(xs: seq<Tarea>, ys: seq<Tarea>, i: nat)
    requires |xs| == |ys| && i < |xs|
    ensures DiferenciasPrioridad(xs[..i + 1], ys[..i + 1])
      == DiferenciasPrioridad(xs[..i], ys[..i]) + (if xs[i].prioridad != ys[i].prioridad then 1 else 0)
  {
    assert xs[..i + 1][..i] == xs[..i];
    assert ys[..i + 1][..i] == ys[..i];
  }
}
