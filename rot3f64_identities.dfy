/** Polynomial identities behind the rotor laws of src/rot/rot3f64.rs,
    stated over plain components.

    Every lemma spells out the formulas of the model's functions over the
    components of its arguments (a rotor `a` has `aS, aXy, aYz, aZx`, a
    vector `v` has `vX, vY, vZ`) and has one conclusion, an identity between
    polynomials. Module Rot3f64Steps restates each through the functions. */
module Rot3f64Identities {

  lemma LeftProductOfAppendedX(aS: real, aXy: real, aYz: real, aZx: real, bS: real, bXy: real, bYz: real, bZx: real, vX: real, vY: real, vZ: real)
    ensures (aS * bS - aXy * bXy - aYz * bYz - aZx * bZx) * vX + (aS * bXy + aXy * bS - aYz * bZx + aZx * bYz) * vY - (aS * bZx + aZx * bS - aXy * bYz + aYz * bXy) * vZ
         == aS * (bS * vX + bXy * vY - bZx * vZ) + aXy * (bS * vY - bXy * vX + bYz * vZ) - aYz * (bXy * vZ + bYz * vX + bZx * vY) - aZx * (bS * vZ - bYz * vY + bZx * vX)
  {
  }

  lemma LeftProductOfAppendedY(aS: real, aXy: real, aYz: real, aZx: real, bS: real, bXy: real, bYz: real, bZx: real, vX: real, vY: real, vZ: real)
    ensures (aS * bS - aXy * bXy - aYz * bYz - aZx * bZx) * vY - (aS * bXy + aXy * bS - aYz * bZx + aZx * bYz) * vX + (aS * bYz + aYz * bS + aXy * bZx - aZx * bXy) * vZ
         == aS * (bS * vY - bXy * vX + bYz * vZ) - aXy * (bS * vX + bXy * vY - bZx * vZ) + aYz * (bS * vZ - bYz * vY + bZx * vX) - aZx * (bXy * vZ + bYz * vX + bZx * vY)
  {
  }

  lemma LeftProductOfAppendedZ(aS: real, aXy: real, aYz: real, aZx: real, bS: real, bXy: real, bYz: real, bZx: real, vX: real, vY: real, vZ: real)
    ensures (aS * bS - aXy * bXy - aYz * bYz - aZx * bZx) * vZ - (aS * bYz + aYz * bS + aXy * bZx - aZx * bXy) * vY + (aS * bZx + aZx * bS - aXy * bYz + aYz * bXy) * vX
         == aS * (bS * vZ - bYz * vY + bZx * vX) - aXy * (bXy * vZ + bYz * vX + bZx * vY) - aYz * (bS * vY - bXy * vX + bYz * vZ) + aZx * (bS * vX + bXy * vY - bZx * vZ)
  {
  }

  lemma LeftProductOfAppendedXyz(aS: real, aXy: real, aYz: real, aZx: real, bS: real, bXy: real, bYz: real, bZx: real, vX: real, vY: real, vZ: real)
    ensures (aS * bXy + aXy * bS - aYz * bZx + aZx * bYz) * vZ + (aS * bYz + aYz * bS + aXy * bZx - aZx * bXy) * vX + (aS * bZx + aZx * bS - aXy * bYz + aYz * bXy) * vY
         == aS * (bXy * vZ + bYz * vX + bZx * vY) + aXy * (bS * vZ - bYz * vY + bZx * vX) + aYz * (bS * vX + bXy * vY - bZx * vZ) + aZx * (bS * vY - bXy * vX + bYz * vZ)
  {
  }

  lemma TimesReverseOfAppendedX(pX: real, pY: real, pZ: real, pXyz: real, aS: real, aXy: real, aYz: real, aZx: real, bS: real, bXy: real, bYz: real, bZx: real)
    ensures pX * (aS * bS - aXy * bXy - aYz * bYz - aZx * bZx) + pY * (aS * bXy + aXy * bS - aYz * bZx + aZx * bYz) - pZ * (aS * bZx + aZx * bS - aXy * bYz + aYz * bXy) + pXyz * (aS * bYz + aYz * bS + aXy * bZx - aZx * bXy)
         == (pX * bS + pY * bXy - pZ * bZx + pXyz * bYz) * aS + (pY * bS - pX * bXy + pZ * bYz + pXyz * bZx) * aXy - (pZ * bS + pX * bZx - pY * bYz + pXyz * bXy) * aZx + (pXyz * bS - pX * bYz - pY * bZx - pZ * bXy) * aYz
  {
  }

  lemma TimesReverseOfAppendedY(pX: real, pY: real, pZ: real, pXyz: real, aS: real, aXy: real, aYz: real, aZx: real, bS: real, bXy: real, bYz: real, bZx: real)
    ensures pY * (aS * bS - aXy * bXy - aYz * bYz - aZx * bZx) - pX * (aS * bXy + aXy * bS - aYz * bZx + aZx * bYz) + pZ * (aS * bYz + aYz * bS + aXy * bZx - aZx * bXy) + pXyz * (aS * bZx + aZx * bS - aXy * bYz + aYz * bXy)
         == (pY * bS - pX * bXy + pZ * bYz + pXyz * bZx) * aS - (pX * bS + pY * bXy - pZ * bZx + pXyz * bYz) * aXy + (pZ * bS + pX * bZx - pY * bYz + pXyz * bXy) * aYz + (pXyz * bS - pX * bYz - pY * bZx - pZ * bXy) * aZx
  {
  }

  lemma TimesReverseOfAppendedZ(pX: real, pY: real, pZ: real, pXyz: real, aS: real, aXy: real, aYz: real, aZx: real, bS: real, bXy: real, bYz: real, bZx: real)
    ensures pZ * (aS * bS - aXy * bXy - aYz * bYz - aZx * bZx) + pX * (aS * bZx + aZx * bS - aXy * bYz + aYz * bXy) - pY * (aS * bYz + aYz * bS + aXy * bZx - aZx * bXy) + pXyz * (aS * bXy + aXy * bS - aYz * bZx + aZx * bYz)
         == (pZ * bS + pX * bZx - pY * bYz + pXyz * bXy) * aS + (pX * bS + pY * bXy - pZ * bZx + pXyz * bYz) * aZx - (pY * bS - pX * bXy + pZ * bYz + pXyz * bZx) * aYz + (pXyz * bS - pX * bYz - pY * bZx - pZ * bXy) * aXy
  {
  }

  lemma TimesReverseOfAppendedXyz(pX: real, pY: real, pZ: real, pXyz: real, aS: real, aXy: real, aYz: real, aZx: real, bS: real, bXy: real, bYz: real, bZx: real)
    ensures pXyz * (aS * bS - aXy * bXy - aYz * bYz - aZx * bZx) - pX * (aS * bYz + aYz * bS + aXy * bZx - aZx * bXy) - pY * (aS * bZx + aZx * bS - aXy * bYz + aYz * bXy) - pZ * (aS * bXy + aXy * bS - aYz * bZx + aZx * bYz)
         == (pXyz * bS - pX * bYz - pY * bZx - pZ * bXy) * aS - (pX * bS + pY * bXy - pZ * bZx + pXyz * bYz) * aYz - (pY * bS - pX * bXy + pZ * bYz + pXyz * bZx) * aZx - (pZ * bS + pX * bZx - pY * bYz + pXyz * bXy) * aXy
  {
  }

  lemma TimesAssociativeX(aS: real, aXy: real, aYz: real, aZx: real, qX: real, qY: real, qZ: real, qXyz: real, bS: real, bXy: real, bYz: real, bZx: real)
    ensures (aS * qX + aXy * qY - aYz * qXyz - aZx * qZ) * bS + (aS * qY - aXy * qX + aYz * qZ - aZx * qXyz) * bXy - (aS * qZ - aXy * qXyz - aYz * qY + aZx * qX) * bZx + (aS * qXyz + aXy * qZ + aYz * qX + aZx * qY) * bYz
         == aS * (qX * bS + qY * bXy - qZ * bZx + qXyz * bYz) + aXy * (qY * bS - qX * bXy + qZ * bYz + qXyz * bZx) - aYz * (qXyz * bS - qX * bYz - qY * bZx - qZ * bXy) - aZx * (qZ * bS + qX * bZx - qY * bYz + qXyz * bXy)
  {
  }

  lemma TimesAssociativeY(aS: real, aXy: real, aYz: real, aZx: real, qX: real, qY: real, qZ: real, qXyz: real, bS: real, bXy: real, bYz: real, bZx: real)
    ensures (aS * qY - aXy * qX + aYz * qZ - aZx * qXyz) * bS - (aS * qX + aXy * qY - aYz * qXyz - aZx * qZ) * bXy + (aS * qZ - aXy * qXyz - aYz * qY + aZx * qX) * bYz + (aS * qXyz + aXy * qZ + aYz * qX + aZx * qY) * bZx
         == aS * (qY * bS - qX * bXy + qZ * bYz + qXyz * bZx) - aXy * (qX * bS + qY * bXy - qZ * bZx + qXyz * bYz) + aYz * (qZ * bS + qX * bZx - qY * bYz + qXyz * bXy) - aZx * (qXyz * bS - qX * bYz - qY * bZx - qZ * bXy)
  {
  }

  lemma TimesAssociativeZ(aS: real, aXy: real, aYz: real, aZx: real, qX: real, qY: real, qZ: real, qXyz: real, bS: real, bXy: real, bYz: real, bZx: real)
    ensures (aS * qZ - aXy * qXyz - aYz * qY + aZx * qX) * bS + (aS * qX + aXy * qY - aYz * qXyz - aZx * qZ) * bZx - (aS * qY - aXy * qX + aYz * qZ - aZx * qXyz) * bYz + (aS * qXyz + aXy * qZ + aYz * qX + aZx * qY) * bXy
         == aS * (qZ * bS + qX * bZx - qY * bYz + qXyz * bXy) - aXy * (qXyz * bS - qX * bYz - qY * bZx - qZ * bXy) - aYz * (qY * bS - qX * bXy + qZ * bYz + qXyz * bZx) + aZx * (qX * bS + qY * bXy - qZ * bZx + qXyz * bYz)
  {
  }

  lemma TimesAssociativeXyz(aS: real, aXy: real, aYz: real, aZx: real, qX: real, qY: real, qZ: real, qXyz: real, bS: real, bXy: real, bYz: real, bZx: real)
    ensures (aS * qXyz + aXy * qZ + aYz * qX + aZx * qY) * bS - (aS * qX + aXy * qY - aYz * qXyz - aZx * qZ) * bYz - (aS * qY - aXy * qX + aYz * qZ - aZx * qXyz) * bZx - (aS * qZ - aXy * qXyz - aYz * qY + aZx * qX) * bXy
         == aS * (qXyz * bS - qX * bYz - qY * bZx - qZ * bXy) + aXy * (qZ * bS + qX * bZx - qY * bYz + qXyz * bXy) + aYz * (qX * bS + qY * bXy - qZ * bZx + qXyz * bYz) + aZx * (qY * bS - qX * bXy + qZ * bYz + qXyz * bZx)
  {
  }

  lemma SandwichTrivectorXyz(rS: real, rXy: real, rYz: real, rZx: real, vX: real, vY: real, vZ: real)
    ensures (rXy * vZ + rYz * vX + rZx * vY) * rS - (rS * vX + rXy * vY - rZx * vZ) * rYz - (rS * vY - rXy * vX + rYz * vZ) * rZx - (rS * vZ - rYz * vY + rZx * vX) * rXy
         == 0.0
  {
  }

  lemma AppendedNorm(aS: real, aXy: real, aYz: real, aZx: real, bS: real, bXy: real, bYz: real, bZx: real)
    ensures (aS * bS - aXy * bXy - aYz * bYz - aZx * bZx) * (aS * bS - aXy * bXy - aYz * bYz - aZx * bZx) + (aS * bXy + aXy * bS - aYz * bZx + aZx * bYz) * (aS * bXy + aXy * bS - aYz * bZx + aZx * bYz) + (aS * bYz + aYz * bS + aXy * bZx - aZx * bXy) * (aS * bYz + aYz * bS + aXy * bZx - aZx * bXy) + (aS * bZx + aZx * bS - aXy * bYz + aYz * bXy) * (aS * bZx + aZx * bS - aXy * bYz + aYz * bXy)
         == (aS * aS + aXy * aXy + aYz * aYz + aZx * aZx) * (bS * bS + bXy * bXy + bYz * bYz + bZx * bZx)
  {
  }

  lemma VectorProductNorm(aX: real, aY: real, aZ: real, bX: real, bY: real, bZ: real)
    ensures (bX * aX + bY * aY + bZ * aZ) * (bX * aX + bY * aY + bZ * aZ) + (bX * aY - bY * aX) * (bX * aY - bY * aX) + (bY * aZ - bZ * aY) * (bY * aZ - bZ * aY) + (bZ * aX - bX * aZ) * (bZ * aX - bX * aZ)
         == (aX * aX + aY * aY + aZ * aZ) * (bX * bX + bY * bY + bZ * bZ)
  {
  }

  lemma RotationLength(rS: real, rXy: real, rYz: real, rZx: real, vX: real, vY: real, vZ: real)
    ensures ((rS * vX + rXy * vY - rZx * vZ) * rS + (rS * vY - rXy * vX + rYz * vZ) * rXy - (rS * vZ - rYz * vY + rZx * vX) * rZx + (rXy * vZ + rYz * vX + rZx * vY) * rYz) * ((rS * vX + rXy * vY - rZx * vZ) * rS + (rS * vY - rXy * vX + rYz * vZ) * rXy - (rS * vZ - rYz * vY + rZx * vX) * rZx + (rXy * vZ + rYz * vX + rZx * vY) * rYz) + ((rS * vY - rXy * vX + rYz * vZ) * rS - (rS * vX + rXy * vY - rZx * vZ) * rXy + (rS * vZ - rYz * vY + rZx * vX) * rYz + (rXy * vZ + rYz * vX + rZx * vY) * rZx) * ((rS * vY - rXy * vX + rYz * vZ) * rS - (rS * vX + rXy * vY - rZx * vZ) * rXy + (rS * vZ - rYz * vY + rZx * vX) * rYz + (rXy * vZ + rYz * vX + rZx * vY) * rZx) + ((rS * vZ - rYz * vY + rZx * vX) * rS + (rS * vX + rXy * vY - rZx * vZ) * rZx - (rS * vY - rXy * vX + rYz * vZ) * rYz + (rXy * vZ + rYz * vX + rZx * vY) * rXy) * ((rS * vZ - rYz * vY + rZx * vX) * rS + (rS * vX + rXy * vY - rZx * vZ) * rZx - (rS * vY - rXy * vX + rYz * vZ) * rYz + (rXy * vZ + rYz * vX + rZx * vY) * rXy)
         == (rS * rS + rXy * rXy + rYz * rYz + rZx * rZx) * (rS * rS + rXy * rXy + rYz * rYz + rZx * rZx) * (vX * vX + vY * vY + vZ * vZ)
  {
  }

  lemma BivectorHalfTurnX(rS: real, rXy: real, rYz: real, rZx: real, vX: real, vY: real, vZ: real)
    requires rS == 0.0
    ensures (rS * vX + rXy * vY - rZx * vZ) * rS + (rS * vY - rXy * vX + rYz * vZ) * rXy - (rS * vZ - rYz * vY + rZx * vX) * rZx + (rXy * vZ + rYz * vX + rZx * vY) * rYz
         == rYz * (2.0 * (rYz * vX + rZx * vY + rXy * vZ)) - vX * (rYz * rYz + rZx * rZx + rXy * rXy)
  {
  }

  lemma BivectorHalfTurnY(rS: real, rXy: real, rYz: real, rZx: real, vX: real, vY: real, vZ: real)
    requires rS == 0.0
    ensures (rS * vY - rXy * vX + rYz * vZ) * rS - (rS * vX + rXy * vY - rZx * vZ) * rXy + (rS * vZ - rYz * vY + rZx * vX) * rYz + (rXy * vZ + rYz * vX + rZx * vY) * rZx
         == rZx * (2.0 * (rYz * vX + rZx * vY + rXy * vZ)) - vY * (rYz * rYz + rZx * rZx + rXy * rXy)
  {
  }

  lemma BivectorHalfTurnZ(rS: real, rXy: real, rYz: real, rZx: real, vX: real, vY: real, vZ: real)
    requires rS == 0.0
    ensures (rS * vZ - rYz * vY + rZx * vX) * rS + (rS * vX + rXy * vY - rZx * vZ) * rZx - (rS * vY - rXy * vX + rYz * vZ) * rYz + (rXy * vZ + rYz * vX + rZx * vY) * rXy
         == rXy * (2.0 * (rYz * vX + rZx * vY + rXy * vZ)) - vZ * (rYz * rYz + rZx * rZx + rXy * rXy)
  {
  }
}
